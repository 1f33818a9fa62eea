/** The face tracker stage: every frame, each tracker follows its face; a
    tracker that has not tracked for too long is dropped; no more often than
    the detection pause, the faces detected in the frame are matched to the
    first overlapping tracker or start a new one; the trackers' regions are
    the faces passed on.  The OpenCV cascade detector and MedianFlow
    trackers are oracles: the detections are an input, and so is the
    (ok, roi) answer of each tracker. */
module FaceTracking {
  import opened Common
  import PersonSignal

  // ---------------------------------------------------------------------
  // Rectangle geometry

  /** `scaleFace`: the whole face from the box the cascade detected, using
      the factors (fx, fy, fw, fh) = (0.5, 0.35, 1.0, 1.4). */
  function ScaleFace(x: real, y: real, w: real, h: real): (face: Roi)
    ensures face == Roi(x, y - 0.35 * h, w, 1.4 * h)
    ensures face.x + face.w / 2.0 == x + w / 2.0
  {
    var fx, fy, fw, fh := 0.5, 0.35, 1.0, 1.4;
    var rw := w * fw;
    var rh := h * fh;
    Roi(x + fx * w - rw / 2.0, y + fy * h - rh / 2.0, rw, rh)
  }

  /** Scaling the detected box by k scales the face by k. */
  lemma ScaleFaceLinear(k: real, x: real, y: real, w: real, h: real)
    ensures var f := ScaleFace(x, y, w, h);
      ScaleFace(k * x, k * y, k * w, k * h) == Roi(k * f.x, k * f.y, k * f.w, k * f.h)
  {
    assert k * (y - 0.35 * h) == k * y - 0.35 * (k * h);
    assert k * (1.4 * h) == 1.4 * (k * h);
  }

  /** The faces of all detections, in detection order. */
  function Scaled(dets: seq<Roi>): (faces: seq<Roi>)
    ensures |faces| == |dets|
    ensures forall i :: 0 <= i < |dets| ==> faces[i] == ScaleFace(dets[i].x, dets[i].y, dets[i].w, dets[i].h)
  {
    seq(|dets|, i requires 0 <= i < |dets| => ScaleFace(dets[i].x, dets[i].y, dets[i].w, dets[i].h))
  }

  /** `Tracker.overlaps`: the closed extents intersect on both axes. */
  predicate Overlaps(a: Roi, b: Roi)
  {
    a.x <= b.x + b.w && b.x <= a.x + a.w && a.y <= b.y + b.h && b.y <= a.y + a.h
  }

  /** Two boxes of non-negative size overlap exactly when some point lies
      in both closed boxes; so overlap is symmetric, boxes that only touch
      overlap, and every such box overlaps itself. */
  lemma OverlapsSharedPoint(a: Roi, b: Roi)
    requires a.w >= 0.0 && a.h >= 0.0 && b.w >= 0.0 && b.h >= 0.0
    ensures Overlaps(a, b) <==>
      exists px, py :: PersonSignal.ClosedContains(a, px, py) && PersonSignal.ClosedContains(b, px, py)
  {
    if Overlaps(a, b) {
      var px := if a.x <= b.x then b.x else a.x;
      var py := if a.y <= b.y then b.y else a.y;
      assert PersonSignal.ClosedContains(a, px, py) && PersonSignal.ClosedContains(b, px, py);
    }
  }

  lemma OverlapsSymmetric(a: Roi, b: Roi)
    ensures Overlaps(a, b) <==> Overlaps(b, a)
  {
  }

  /** A box whose left edge is another's right edge overlaps it when the
      vertical extents meet. */
  lemma OverlapsTouching(a: Roi, b: Roi)
    requires b.x == a.x + a.w && b.w >= 0.0 && a.w >= 0.0
    requires a.y <= b.y + b.h && b.y <= a.y + a.h
    ensures Overlaps(a, b)
  {
  }

  lemma OverlapsSelf(a: Roi)
    requires a.w >= 0.0 && a.h >= 0.0
    ensures Overlaps(a, a)
  {
  }

  /** `Tracker.contains`: the box without its edges. */
  predicate StrictlyInside(r: Roi, x: real, y: real)
  {
    r.x < x < r.x + r.w && r.y < y < r.y + r.h
  }

  /** A point strictly inside is inside the closed box, and no point of an
      edge is strictly inside. */
  lemma StrictlyInsideNoEdges(r: Roi, x: real, y: real)
    ensures StrictlyInside(r, x, y) ==> PersonSignal.ClosedContains(r, x, y)
    ensures !StrictlyInside(r, r.x, y) && !StrictlyInside(r, r.x + r.w, y)
    ensures !StrictlyInside(r, x, r.y) && !StrictlyInside(r, x, r.y + r.h)
  {
  }

  // ---------------------------------------------------------------------
  // One tracker

  /** The fields of a `Tracker` (the OpenCV tracker object is an oracle). */
  datatype TrackerState = TrackerState(roi: Roi, lastTrackTime: real, lastRoiTime: real, ok: bool)

  /** What the OpenCV tracker answers for a frame: success and a region. */
  datatype TrackResult = TrackResult(ok: bool, roi: Roi)

  /** `roi + weight * (target - roi)`, componentwise. */
  function Blend(cur: Roi, target: Roi, weight: real): Roi
  {
    Roi(cur.x + weight * (target.x - cur.x), cur.y + weight * (target.y - cur.y),
        cur.w + weight * (target.w - cur.w), cur.h + weight * (target.h - cur.h))
  }

  /** a + w * (b - a) lies between a and b when 0 <= w <= 1. */
  predicate Between(v: real, a: real, b: real)
  {
    (a <= v <= b) || (b <= v <= a)
  }

  lemma BlendComponent(a: real, b: real, w: real)
    requires 0.0 <= w <= 1.0
    ensures Between(a + w * (b - a), a, b)
  {
    if a <= b {
      ScaledGap(b - a, w);
    } else {
      ScaledGap(a - b, w);
      var x := w * (a - b);
      assert w * (b - a) == -x;
      assert b <= a - x <= a;
    }
  }

  /** A fraction w of a non-negative gap d lies in [0, d]. */
  lemma ScaledGap(d: real, w: real)
    requires d >= 0.0 && 0.0 <= w <= 1.0
    ensures 0.0 <= w * d <= d
  {
    ProductNonNegative(w, d);
    ProductNonNegative(1.0 - w, d);
    assert (1.0 - w) * d == d - w * d;
  }

  lemma ProductNonNegative(p: real, q: real)
    requires p >= 0.0 && q >= 0.0
    ensures p * q >= 0.0
  {
  }

  /** Weight 1 replaces the region, weight 0 keeps it, a weight in [0, 1]
      stays componentwise between the old and the new region, and blending
      a region with itself leaves it unchanged. */
  lemma BlendProperties(cur: Roi, target: Roi, weight: real)
    ensures Blend(cur, target, 1.0) == target
    ensures Blend(cur, target, 0.0) == cur
    ensures Blend(cur, cur, weight) == cur
    ensures 0.0 <= weight <= 1.0 ==> var r := Blend(cur, target, weight);
      Between(r.x, cur.x, target.x) && Between(r.y, cur.y, target.y) &&
      Between(r.w, cur.w, target.w) && Between(r.h, cur.h, target.h)
  {
    if 0.0 <= weight <= 1.0 {
      BlendComponent(cur.x, target.x, weight);
      BlendComponent(cur.y, target.y, weight);
      BlendComponent(cur.w, target.w, weight);
      BlendComponent(cur.h, target.h, weight);
    }
  }

  /** `updateROI(t, im, roi, weight)`: blend the region, stamp both times,
      restart the OpenCV tracker on the new region (so it is ok again). */
  function RoiUpdated(s: TrackerState, t: real, target: Roi, weight: real): (r: TrackerState)
    ensures r.lastTrackTime == t && r.lastRoiTime == t && r.ok
  {
    TrackerState(Blend(s.roi, target, weight), t, t, true)
  }

  /** `Tracker(t, im, roi)`: the region is set, then updated towards itself
      with the default weight 0.5. */
  function NewTracker(t: real, face: Roi): (r: TrackerState)
    ensures r == TrackerState(face, t, t, true)
  {
    BlendProperties(face, face, 0.5);
    RoiUpdated(TrackerState(face, t, t, false), t, face, 0.5)
  }

  /** `update(t, im)`: only an ok tracker asks OpenCV; success moves the
      region and stamps the tracking time, failure only clears `ok`. */
  function Tracked(s: TrackerState, t: real, res: TrackResult): (r: TrackerState)
    ensures !s.ok ==> r == s
    ensures s.ok && !res.ok ==> r == s.(ok := false)
    ensures r.ok ==> s.ok && res.ok && r.roi == res.roi && r.lastTrackTime == t
    ensures r.lastRoiTime == s.lastRoiTime
  {
    if !s.ok then s
    else if res.ok then s.(ok := true, roi := res.roi, lastTrackTime := t)
    else s.(ok := false)
  }

  // ---------------------------------------------------------------------
  // The tracker list

  /** The tracker stage's fields: its trackers and the last detection time. */
  datatype FaceTrackerState = FaceTrackerState(trackers: seq<TrackerState>, t0: real)

  /** Every tracker follows its face; `track(i)` is the OpenCV answer of
      the i-th tracker. */
  function TrackAll(ts: seq<TrackerState>, t: real, track: nat -> TrackResult): (r: seq<TrackerState>)
    ensures |r| == |ts|
  {
    seq(|ts|, i requires 0 <= i < |ts| => Tracked(ts[i], t, track(i)))
  }

  /** A tracker survives when it tracked within the timeout. */
  predicate Alive(s: TrackerState, t: real, timeout: real)
  {
    t - s.lastTrackTime < timeout
  }

  function AliveFlags(ts: seq<TrackerState>, t: real, timeout: real): (flags: seq<bool>)
    ensures |flags| == |ts|
    ensures forall i :: 0 <= i < |ts| ==> (flags[i] <==> Alive(ts[i], t, timeout))
  {
    seq(|ts|, i requires 0 <= i < |ts| => Alive(ts[i], t, timeout))
  }

  /** `[t for t in self.trackers if t1 - t.lastTrackTime < timeout]`. */
  function Surviving(ts: seq<TrackerState>, t: real, timeout: real): seq<TrackerState>
  {
    Survivors(ts, AliveFlags(ts, t, timeout))
  }

  /** The surviving trackers are exactly the alive ones, in their order. */
  lemma SurvivingExactly(ts: seq<TrackerState>, t: real, timeout: real)
    ensures |Surviving(ts, t, timeout)| <= |ts|
    ensures forall k :: 0 <= k < |Surviving(ts, t, timeout)| ==> Alive(Surviving(ts, t, timeout)[k], t, timeout)
    ensures forall i :: 0 <= i < |ts| && Alive(ts[i], t, timeout) ==> ts[i] in Surviving(ts, t, timeout)
    ensures forall k, l :: 0 <= k < l < |Surviving(ts, t, timeout)| ==>
      Kept(AliveFlags(ts, t, timeout))[k] < Kept(AliveFlags(ts, t, timeout))[l] &&
      Surviving(ts, t, timeout)[k] == ts[Kept(AliveFlags(ts, t, timeout))[k]] &&
      Surviving(ts, t, timeout)[l] == ts[Kept(AliveFlags(ts, t, timeout))[l]]
  {
    var flags := AliveFlags(ts, t, timeout);
    SurvivorsExactly(ts, flags);
    CountAtMost(flags);
  }

  lemma {:induction false} CountAtMost(flags: seq<bool>)
    ensures Count(flags) <= |flags|
  {
    if flags != [] {
      CountAtMost(flags[..|flags| - 1]);
    }
  }

  /** `next((t for t in self.trackers if t.overlaps(face)), None)`, as a
      position in the list. */
  function FirstOverlapping(ts: seq<TrackerState>, face: Roi): (r: Option<nat>)
    ensures r.Some? ==> r.value < |ts| && Overlaps(ts[r.value].roi, face)
    ensures r.Some? ==> forall i :: 0 <= i < r.value ==> !Overlaps(ts[i].roi, face)
    ensures r.None? ==> forall i :: 0 <= i < |ts| ==> !Overlaps(ts[i].roi, face)
  {
    FirstOverlappingFrom(ts, face, 0)
  }

  function FirstOverlappingFrom(ts: seq<TrackerState>, face: Roi, i: nat): (r: Option<nat>)
    requires i <= |ts|
    ensures r.Some? ==> i <= r.value < |ts| && Overlaps(ts[r.value].roi, face)
    ensures r.Some? ==> forall k :: i <= k < r.value ==> !Overlaps(ts[k].roi, face)
    ensures r.None? ==> forall k :: i <= k < |ts| ==> !Overlaps(ts[k].roi, face)
    decreases |ts| - i
  {
    if i == |ts| then None
    else if Overlaps(ts[i].roi, face) then Some(i)
    else FirstOverlappingFrom(ts, face, i + 1)
  }

  /** The weight given to a detection by the tracker it overlaps. */
  function DetectionWeight(s: TrackerState): real
  {
    if s.ok then 0.2 else 1.0
  }

  /** One detected face: it updates the first overlapping tracker, or a new
      tracker is appended for it. */
  function DetectFace(ts: seq<TrackerState>, t: real, face: Roi): (r: seq<TrackerState>)
    ensures |ts| <= |r| <= |ts| + 1
  {
    var k := FirstOverlapping(ts, face);
    if k.Some? then ts[k.value := RoiUpdated(ts[k.value], t, face, DetectionWeight(ts[k.value]))]
    else ts + [NewTracker(t, face)]
  }

  /** The detection loop over the first n faces. */
  function DetectUpTo(ts: seq<TrackerState>, t: real, faces: seq<Roi>, n: nat): (r: seq<TrackerState>)
    requires n <= |faces|
    ensures |ts| <= |r| <= |ts| + n
  {
    if n == 0 then ts else DetectFace(DetectUpTo(ts, t, faces, n - 1), t, faces[n - 1])
  }

  /** What one detected face does: the tracker it went to (the first
      overlapping one, or a new one at the end) has been stamped with the
      frame time and is ok; it took a fifth of the way to the face when it
      was ok and the face itself otherwise; every other tracker is
      unchanged. */
  lemma DetectFaceEffect(ts: seq<TrackerState>, t: real, face: Roi)
    ensures var r := DetectFace(ts, t, face);
      exists j :: 0 <= j < |r| &&
        (j < |ts| ==> FirstOverlapping(ts, face) == Some(j)) &&
        (j == |ts| ==> FirstOverlapping(ts, face).None? && |r| == |ts| + 1) &&
        r[j].lastTrackTime == t && r[j].lastRoiTime == t && r[j].ok &&
        r[j].roi == (if j < |ts| && ts[j].ok then Blend(ts[j].roi, face, 0.2) else face) &&
        forall i :: 0 <= i < |ts| && i != j ==> r[i] == ts[i]
  {
    var r := DetectFace(ts, t, face);
    var k := FirstOverlapping(ts, face);
    if k.Some? {
      var j := k.value;
      if !ts[j].ok {
        BlendProperties(ts[j].roi, face, 1.0);
      }
      assert 0 <= j < |r| && r[j].roi == (if j < |ts| && ts[j].ok then Blend(ts[j].roi, face, 0.2) else face);
    } else {
      var j := |ts|;
      assert 0 <= j < |r| && r[j] == NewTracker(t, face);
    }
  }

  /** Trackers touched by detection are stamped with the frame time, so
      when the timeout is positive every tracker is still alive after the
      detection loop if it was alive before. */
  lemma {:induction false} DetectKeepsAlive(ts: seq<TrackerState>, t: real, faces: seq<Roi>, n: nat, timeout: real)
    requires n <= |faces| && timeout > 0.0
    requires forall i :: 0 <= i < |ts| ==> Alive(ts[i], t, timeout)
    ensures forall i :: 0 <= i < |DetectUpTo(ts, t, faces, n)| ==> Alive(DetectUpTo(ts, t, faces, n)[i], t, timeout)
  {
    if n > 0 {
      DetectKeepsAlive(ts, t, faces, n - 1, timeout);
      var before := DetectUpTo(ts, t, faces, n - 1);
      DetectFaceEffect(before, t, faces[n - 1]);
    }
  }

  /** The faces passed on: the trackers' regions, in list order. */
  function Rois(ts: seq<TrackerState>): (faces: seq<Roi>)
    ensures |faces| == |ts|
    ensures forall i :: 0 <= i < |ts| ==> faces[i] == ts[i].roi
  {
    seq(|ts|, i requires 0 <= i < |ts| => ts[i].roi)
  }

  /** Whether the frame at t1 is a detection frame. */
  predicate DetectNow(cfg: Config, s: FaceTrackerState, t1: real)
  {
    t1 - s.t0 >= cfg.faceDetectPause
  }

  /** `on_source((t1, im))`: track, evict, detect when the pause has
      passed, and pass the regions on. */
  function OnSourceState(cfg: Config, s: FaceTrackerState, t1: real, track: nat -> TrackResult, dets: seq<Roi>):
    (r: (FaceTrackerState, seq<Roi>))
  {
    var kept := Surviving(TrackAll(s.trackers, t1, track), t1, cfg.faceTrackingTimeout);
    var faces := Scaled(dets);
    var s1 := if DetectNow(cfg, s, t1) then FaceTrackerState(DetectUpTo(kept, t1, faces, |faces|), t1)
              else FaceTrackerState(kept, s.t0);
    (s1, Rois(s1.trackers))
  }

  /** Without detection the trackers are the surviving ones and t0 stays;
      with detection t0 becomes the frame time and the surviving trackers
      are followed by at most one new tracker per detection. */
  lemma OnSourceDetection(cfg: Config, s: FaceTrackerState, t1: real, track: nat -> TrackResult, dets: seq<Roi>)
    ensures var (s1, faces) := OnSourceState(cfg, s, t1, track, dets);
      var kept := Surviving(TrackAll(s.trackers, t1, track), t1, cfg.faceTrackingTimeout);
      (!DetectNow(cfg, s, t1) ==> s1.t0 == s.t0 && s1.trackers == kept) &&
      (DetectNow(cfg, s, t1) ==> s1.t0 == t1 && |kept| <= |s1.trackers| <= |kept| + |dets|) &&
      |s1.trackers| <= |s.trackers| + |dets| &&
      faces == Rois(s1.trackers)
  {
    var kept := Surviving(TrackAll(s.trackers, t1, track), t1, cfg.faceTrackingTimeout);
    SurvivingExactly(TrackAll(s.trackers, t1, track), t1, cfg.faceTrackingTimeout);
    assert |kept| <= |s.trackers|;
  }

  /** With a positive timeout, every tracker left after a frame tracked or
      was detected within the timeout of that frame. */
  lemma OnSourceAlive(cfg: Config, s: FaceTrackerState, t1: real, track: nat -> TrackResult, dets: seq<Roi>)
    requires cfg.faceTrackingTimeout > 0.0
    ensures var s1 := OnSourceState(cfg, s, t1, track, dets).0;
      forall i :: 0 <= i < |s1.trackers| ==> Alive(s1.trackers[i], t1, cfg.faceTrackingTimeout)
  {
    var timeout := cfg.faceTrackingTimeout;
    var kept := Surviving(TrackAll(s.trackers, t1, track), t1, timeout);
    SurvivingExactly(TrackAll(s.trackers, t1, track), t1, timeout);
    if DetectNow(cfg, s, t1) {
      var faces := Scaled(dets);
      DetectKeepsAlive(kept, t1, faces, |faces|, timeout);
    }
  }

  // ---------------------------------------------------------------------
  // The objects

  /** `Tracker`: a region followed from frame to frame. */
  class Tracker {
    var roi: Roi
    var lastTrackTime: real
    var lastRoiTime: real
    var ok: bool

    /** The fields as one value. */
    function State(): TrackerState
      reads this
    {
      TrackerState(roi, lastTrackTime, lastRoiTime, ok)
    }

    constructor(t: real, face: Roi)
      ensures State() == NewTracker(t, face)
    {
      roi := face;
      new;
      BlendProperties(face, face, 0.5);
      UpdateRoi(t, face, 0.5);
    }

    method UpdateRoi(t: real, target: Roi, weight: real)
      modifies this
      ensures State() == RoiUpdated(old(State()), t, target, weight)
    {
      lastTrackTime, lastRoiTime := t, t;
      roi := Blend(roi, target, weight);
      ok := true;
    }

    /** `update(t, im)`, with the OpenCV tracker's answer for the frame. */
    method Update(t: real, res: TrackResult)
      modifies this
      ensures State() == Tracked(old(State()), t, res)
    {
      if ok {
        ok := res.ok;
        if ok {
          roi := res.roi;
          lastTrackTime := t;
        }
      }
    }

    method Contains(x: real, y: real) returns (b: bool)
      ensures b == StrictlyInside(roi, x, y)
    {
      b := roi.x < x < roi.x + roi.w && roi.y < y < roi.y + roi.h;
    }

    method OverlapsRoi(other: Roi) returns (b: bool)
      ensures b == Overlaps(roi, other)
    {
      b := roi.x <= other.x + other.w && other.x <= roi.x + roi.w &&
           roi.y <= other.y + other.h && other.y <= roi.y + roi.h;
    }
  }

  /** `FaceTracker`: the trackers of the faces in view. */
  class FaceTracker {
    var trackers: seq<Tracker>
    var t0: real
    /** Every tracker this stage has held, so that methods may change them. */
    ghost var Repr: set<Tracker>

    /** The list has no duplicates and holds only trackers in `Repr`. */
    ghost predicate Owned()
      reads this
    {
      Unique(trackers) && forall i :: 0 <= i < |trackers| ==> trackers[i] in Repr
    }

    /** The trackers' states, in list order. */
    function States(): (ss: seq<TrackerState>)
      reads this`trackers, trackers
      ensures |ss| == |trackers|
      ensures forall i :: 0 <= i < |trackers| ==> ss[i] == trackers[i].State()
    {
      var ts := trackers;
      seq(|ts|, i reads ts requires 0 <= i < |ts| => ts[i].State())
    }

    function State(): FaceTrackerState
      reads this, trackers
    {
      FaceTrackerState(States(), t0)
    }

    constructor()
      ensures Owned() && State() == FaceTrackerState([], 0.0)
    {
      trackers := [];
      t0 := 0.0;
      Repr := {};
    }

    /** `tracker.update(t1, im)` for the tracker at position i. */
    method UpdateAt(t: real, res: TrackResult, i: nat)
      requires i < |trackers| && Unique(trackers)
      modifies trackers[i]
      ensures trackers == old(trackers)
      ensures States() == old(States())[i := Tracked(old(States())[i], t, res)]
    {
      trackers[i].Update(t, res);
    }

    /** `for tracker in self.trackers: tracker.update(t1, im)`. */
    method UpdateAll(t: real, track: nat -> TrackResult)
      requires Unique(trackers)
      modifies trackers
      ensures trackers == old(trackers)
      ensures States() == TrackAll(old(States()), t, track)
    {
      ghost var ss := States();
      var i := 0;
      while i < |trackers|
        invariant 0 <= i <= |trackers| == |ss|
        invariant trackers == old(trackers)
        invariant forall k :: 0 <= k < i ==> States()[k] == Tracked(ss[k], t, track(k))
        invariant forall k :: i <= k < |ss| ==> States()[k] == ss[k]
      {
        UpdateAt(t, track(i), i);
        i := i + 1;
      }
    }

    /** `self.trackers = [t for t in self.trackers if t1 - t.lastTrackTime < timeout]`. */
    method Evict(t: real, timeout: real)
      requires Owned()
      modifies this
      ensures Owned() && Repr == old(Repr) && t0 == old(t0)
      ensures States() == Surviving(old(States()), t, timeout)
    {
      ghost var before := States();
      ghost var xs := trackers;
      ghost var flags := AliveFlags(before, t, timeout);
      var kept := [];
      var i := 0;
      while i < |trackers|
        invariant trackers == xs && Repr == old(Repr) && t0 == old(t0)
        invariant 0 <= i <= |xs|
        invariant kept == Survivors(xs[..i], flags[..i])
      {
        SurvivorsSnoc(xs, flags, i);
        if t - trackers[i].lastTrackTime < timeout {
          kept := kept + [trackers[i]];
        }
        i := i + 1;
      }
      assert xs[..i] == xs && flags[..i] == flags;
      trackers := kept;
      StatesOfSurvivors(xs, before, flags);
      SurvivorsFrom(xs, flags);
    }

    /** The states of the survivors are the survivors of the states. */
    lemma StatesOfSurvivors(xs: seq<Tracker>, ss: seq<TrackerState>, flags: seq<bool>)
      requires |xs| == |ss| == |flags|
      requires forall i :: 0 <= i < |xs| ==> ss[i] == xs[i].State()
      requires trackers == Survivors(xs, flags)
      ensures States() == Survivors(ss, flags)
    {
      var idx := Kept(flags);
      assert forall k :: 0 <= k < |trackers| ==> trackers[k] == xs[idx[k]];
      assert forall k :: 0 <= k < |trackers| ==> States()[k] == ss[idx[k]];
    }

    /** `next((t for t in self.trackers if t.overlaps(face)), None)`, as a
        position in the list. */
    method FindOverlapping(face: Roi) returns (r: Option<nat>)
      ensures r == FirstOverlapping(States(), face)
    {
      var i := 0;
      while i < |trackers|
        invariant 0 <= i <= |trackers|
        invariant forall j :: 0 <= j < i ==> !Overlaps(trackers[j].roi, face)
      {
        var b := trackers[i].OverlapsRoi(face);
        if b {
          r := Some(i);
          assert r.value < |States()| && Overlaps(States()[r.value].roi, face);
          ghost var q := FirstOverlapping(States(), face);
          assert q.Some? && q.value == i;
          return;
        }
        i := i + 1;
      }
      r := None;
    }

    /** `tracker.updateROI(t1, im, face, weight)` on the tracker at position k. */
    method UpdateRoiAt(k: nat, t: real, face: Roi, weight: real)
      requires k < |trackers| && Unique(trackers)
      modifies trackers[k]
      ensures trackers == old(trackers)
      ensures States() == old(States())[k := RoiUpdated(old(States())[k], t, face, weight)]
    {
      trackers[k].UpdateRoi(t, face, weight);
    }

    /** `self.trackers.append(Tracker(t1, im, face))`. */
    method AddTracker(t: real, face: Roi) returns (tr: Tracker)
      modifies this
      ensures fresh(tr) && trackers == old(trackers) + [tr] && Repr == old(Repr) + {tr}
      ensures t0 == old(t0)
      ensures States() == old(States()) + [NewTracker(t, face)]
    {
      tr := new Tracker(t, face);
      trackers := trackers + [tr];
      Repr := Repr + {tr};
    }

    /** One iteration of the detection loop, for one face. */
    method DetectOne(t: real, face: Roi, ghost ts: seq<TrackerState>)
      requires Owned() && States() == ts
      modifies this, Repr
      ensures Owned() && fresh(Repr - old(Repr)) && t0 == old(t0)
      ensures States() == DetectFace(ts, t, face)
    {
      var k := FindOverlapping(face);
      if k.Some? {
        var weight := if trackers[k.value].ok then 0.2 else 1.0;
        UpdateRoiAt(k.value, t, face, weight);
      } else {
        var tr := AddTracker(t, face);
      }
    }

    /** Iteration j of the detection loop, stated against `DetectUpTo`. */
    method DetectStep(t: real, faces: seq<Roi>, j: nat, ghost ts: seq<TrackerState>)
      requires j < |faces| && Owned() && States() == DetectUpTo(ts, t, faces, j)
      modifies this, Repr
      ensures Owned() && fresh(Repr - old(Repr)) && t0 == old(t0)
      ensures States() == DetectUpTo(ts, t, faces, j + 1)
    {
      DetectOne(t, faces[j], DetectUpTo(ts, t, faces, j));
    }

    /** The detection loop of `on_source`. */
    method Detect(t: real, faces: seq<Roi>)
      requires Owned()
      modifies this, Repr
      ensures Owned() && fresh(Repr - old(Repr)) && t0 == old(t0)
      ensures States() == DetectUpTo(old(States()), t, faces, |faces|)
    {
      ghost var ts := States();
      var j := 0;
      while j < |faces|
        invariant 0 <= j <= |faces|
        invariant Owned() && fresh(Repr - old(Repr)) && t0 == old(t0)
        invariant States() == DetectUpTo(ts, t, faces, j)
      {
        DetectStep(t, faces, j, ts);
        j := j + 1;
      }
    }

    /** `[t.roi for t in self.trackers]`. */
    method Regions() returns (faces: seq<Roi>)
      ensures faces == Rois(States())
    {
      faces := [];
      var i := 0;
      while i < |trackers|
        invariant 0 <= i <= |trackers| && |faces| == i
        invariant forall k :: 0 <= k < i ==> faces[k] == trackers[k].roi
      {
        faces := faces + [trackers[i].roi];
        i := i + 1;
      }
    }

    /** The first half of `on_source`: every tracker follows its face, then
        the trackers that timed out are dropped. */
    method Refresh(t1: real, track: nat -> TrackResult, timeout: real)
      requires Owned()
      modifies this, Repr
      ensures Owned() && Repr == old(Repr) && t0 == old(t0)
      ensures States() == Surviving(TrackAll(old(States()), t1, track), t1, timeout)
    {
      UpdateAll(t1, track);
      Evict(t1, timeout);
    }

    /** `on_source((t1, im))`: `track` gives each tracker's OpenCV answer
        and `dets` the cascade's detections; returns the faces emitted. */
    method OnSource(cfg: Config, t1: real, track: nat -> TrackResult, dets: seq<Roi>) returns (faces: seq<Roi>)
      requires Owned()
      modifies this, Repr
      ensures Owned() && fresh(Repr - old(Repr))
      ensures (State(), faces) == OnSourceState(cfg, old(State()), t1, track, dets)
    {
      ghost var s := State();
      Refresh(t1, track, cfg.faceTrackingTimeout);
      ghost var kept := States();
      assert kept == Surviving(TrackAll(s.trackers, t1, track), t1, cfg.faceTrackingTimeout);
      if t1 - t0 >= cfg.faceDetectPause {
        var detected := Scaled(dets);
        Detect(t1, detected);
        t0 := t1;
        assert State() == FaceTrackerState(DetectUpTo(kept, t1, detected, |detected|), t1);
      } else {
        assert State() == FaceTrackerState(kept, s.t0);
      }
      ghost var s1 := State();
      faces := Regions();
      assert State() == s1 && faces == Rois(s1.trackers);
    }
  }
}
