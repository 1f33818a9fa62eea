/** The scene analyzer: the faces found in a frame are matched to the persons
    already known by centroid containment, unmatched faces become new
    persons, persons nobody matched are dropped, and every remaining person
    analyzes the frame's green channel. */
module SceneAnalysis {
  import opened Common
  import opened PersonSignal

  // ---------------------------------------------------------------------
  // Frames

  /** One pixel of an OpenCV BGR frame. */
  datatype Bgr = Bgr(blue: Byte, green: Byte, red: Byte)

  /** A captured frame: its time stamp and its rows of pixels. */
  datatype Frame = Frame(time: real, width: nat, pixels: seq<seq<Bgr>>)

  predicate WellFormed(f: Frame)
  {
    forall r :: 0 <= r < |f.pixels| ==> |f.pixels[r]| == f.width
  }

  /** `frame.image[:, :, 1]`: the green channel of a BGR frame. */
  function Green(f: Frame): (im: Channel)
    ensures im.width == f.width && |im.rows| == |f.pixels|
    ensures forall r :: 0 <= r < |f.pixels| ==> |im.rows[r]| == |f.pixels[r]|
    ensures forall r, c :: 0 <= r < |f.pixels| && 0 <= c < |f.pixels[r]| ==>
      im.rows[r][c] == f.pixels[r][c].green
    ensures WellFormed(f) ==> IsRaster(im)
  {
    Channel(f.width, seq(|f.pixels|, r requires 0 <= r < |f.pixels| =>
      seq(|f.pixels[r]|, c requires 0 <= c < |f.pixels[r]| => f.pixels[r][c].green)))
  }

  // ---------------------------------------------------------------------
  // Matching faces to persons

  /** The first person, in list order, whose face contains the point. */
  function FirstContaining(ps: seq<PersonState>, x: real, y: real): (r: Option<nat>)
    ensures r.Some? ==> r.value < |ps| && ClosedContains(ps[r.value].face, x, y)
    ensures r.Some? ==> forall i :: 0 <= i < r.value ==> !ClosedContains(ps[i].face, x, y)
    ensures r.None? ==> forall i :: 0 <= i < |ps| ==> !ClosedContains(ps[i].face, x, y)
    decreases |ps|
  {
    if ps == [] then None
    else if ClosedContains(ps[0].face, x, y) then Some(0)
    else
      var r := FirstContaining(ps[1..], x, y);
      assert forall i :: 1 <= i < |ps| ==> ps[i] == ps[1..][i - 1];
      if r.Some? then Some(r.value + 1) else None
  }

  /** The persons during the matching loop, with the `present` set as one
      flag per person. */
  datatype Matching = Matching(persons: seq<PersonState>, present: seq<bool>)

  /** One iteration of the matching loop: the face goes to the first person
      containing its centroid, who records it with `setFace`, or else to a
      new person appended at the end; either way that person is present. */
  function MatchFace(m: Matching, face: Roi): (r: Matching)
    requires |m.persons| == |m.present|
    ensures |r.persons| == |r.present|
  {
    var (cx, cy) := Centroid(face);
    var k := FirstContaining(m.persons, cx, cy);
    if k.Some? then
      Matching(m.persons[k.value := WithFace(m.persons[k.value], face)], m.present[k.value := true])
    else
      Matching(m.persons + [NewPerson(face)], m.present + [true])
  }

  /** The matching loop over all faces of the frame, from a list where
      nobody is present yet. */
  function MatchAll(ps: seq<PersonState>, faces: seq<Roi>): (m: Matching)
    ensures |m.persons| == |m.present| >= |ps|
    decreases |faces|
  {
    if faces == [] then Matching(ps, seq(|ps|, i => false))
    else MatchFace(MatchAll(ps, faces[..|faces| - 1]), faces[|faces| - 1])
  }

  lemma {:induction false} CountSet(flags: seq<bool>, k: nat)
    requires k < |flags|
    ensures Count(flags[k := true]) <= Count(flags) + 1
    decreases |flags|
  {
    var n := |flags| - 1;
    var g := flags[k := true];
    assert g[..n] == if k < n then flags[..n][k := true] else flags[..n];
    if k < n {
      CountSet(flags[..n], k);
    }
  }

  lemma {:induction false} CountNone(n: nat)
    ensures Count(seq(n, i => false)) == 0
  {
    if n > 0 {
      assert seq(n, i => false)[..n - 1] == seq(n - 1, i => false);
      CountNone(n - 1);
    }
  }

  /** Each face makes at most one person present, so at most as many
      persons survive as there are faces, and none when there are none. */
  lemma {:induction false} PresentAtMostFaces(ps: seq<PersonState>, faces: seq<Roi>)
    ensures Count(MatchAll(ps, faces).present) <= |faces|
    ensures faces == [] ==> Count(MatchAll(ps, faces).present) == 0
    decreases |faces|
  {
    if faces == [] {
      CountNone(|ps|);
    } else {
      var m := MatchAll(ps, faces[..|faces| - 1]);
      PresentAtMostFaces(ps, faces[..|faces| - 1]);
      var face := faces[|faces| - 1];
      var (cx, cy) := Centroid(face);
      var k := FirstContaining(m.persons, cx, cy);
      if k.Some? {
        CountSet(m.present, k.value);
      } else {
        assert (m.present + [true])[..|m.present|] == m.present;
      }
    }
  }

  /** What matching does to the list: persons nobody matched are the old
      ones, unchanged; every present person holds one of the frame's faces,
      and apart from its face and previous face it is the old person at
      that position or a new person.  A known person that was matched has
      set a previous face: its face before the frame, or a face of the frame
      that an earlier face of the frame gave it; a new person has none or a
      face of the frame. */
  lemma MatchAllEffect(ps: seq<PersonState>, faces: seq<Roi>)
    ensures var m := MatchAll(ps, faces);
      && (forall i :: 0 <= i < |m.persons| && !m.present[i] ==> i < |ps| && m.persons[i] == ps[i])
      && (forall i :: 0 <= i < |m.persons| && m.present[i] ==> m.persons[i].face in faces)
      && (forall i :: 0 <= i < |ps| ==>
            m.persons[i].(face := ps[i].face, prevFace := ps[i].prevFace) == ps[i])
      && (forall i :: |ps| <= i < |m.persons| ==>
            m.present[i] && m.persons[i].(face := m.persons[i].face, prevFace := None) == NewPerson(m.persons[i].face))
      && (forall i :: 0 <= i < |ps| && m.present[i] ==>
            m.persons[i].prevFace.Some? && (m.persons[i].prevFace.value == ps[i].face || m.persons[i].prevFace.value in faces))
      && (forall i :: |ps| <= i < |m.persons| ==>
            m.persons[i].prevFace.None? || m.persons[i].prevFace.value in faces)
  {
    MatchAllShape(ps, faces);
    MatchAllPrevFaces(ps, faces);
  }

  /** Which persons matching leaves alone, and what it changes in the others. */
  lemma {:induction false} MatchAllShape(ps: seq<PersonState>, faces: seq<Roi>)
    ensures var m := MatchAll(ps, faces);
      && (forall i :: 0 <= i < |m.persons| && !m.present[i] ==> i < |ps| && m.persons[i] == ps[i])
      && (forall i :: 0 <= i < |m.persons| && m.present[i] ==> m.persons[i].face in faces)
      && (forall i :: 0 <= i < |ps| ==>
            m.persons[i].(face := ps[i].face, prevFace := ps[i].prevFace) == ps[i])
      && (forall i :: |ps| <= i < |m.persons| ==>
            m.present[i] && m.persons[i].(face := m.persons[i].face, prevFace := None) == NewPerson(m.persons[i].face))
    decreases |faces|
  {
    if faces != [] {
      var init := faces[..|faces| - 1];
      MatchAllShape(ps, init);
      var m := MatchAll(ps, init);
      var face := faces[|faces| - 1];
      assert forall f :: f in init ==> f in faces;
      var (cx, cy) := Centroid(face);
      var k := FirstContaining(m.persons, cx, cy);
      if k.Some? {
        var q := WithFace(m.persons[k.value], face);
        assert q.(face := q.face, prevFace := None) == m.persons[k.value].(face := q.face, prevFace := None);
      }
    }
  }

  /** The previous faces matching leaves: setFace records the face a person
      held, which is its face before the frame or a face of the frame. */
  lemma {:induction false} MatchAllPrevFaces(ps: seq<PersonState>, faces: seq<Roi>)
    ensures var m := MatchAll(ps, faces);
      && (forall i :: 0 <= i < |ps| && m.present[i] ==>
            m.persons[i].prevFace.Some? && (m.persons[i].prevFace.value == ps[i].face || m.persons[i].prevFace.value in faces))
      && (forall i :: |ps| <= i < |m.persons| ==>
            m.persons[i].prevFace.None? || m.persons[i].prevFace.value in faces)
    decreases |faces|
  {
    if faces != [] {
      var init := faces[..|faces| - 1];
      MatchAllPrevFaces(ps, init);
      MatchAllShape(ps, init);
      var m := MatchAll(ps, init);
      var face := faces[|faces| - 1];
      assert forall f :: f in init ==> f in faces;
      var (cx, cy) := Centroid(face);
      var k := FirstContaining(m.persons, cx, cy);
      if k.Some? {
        var held := m.persons[k.value];
        assert held.face in init || (k.value < |ps| && held.face == ps[k.value].face);
      }
    }
  }

  /** A frame with one face: the person containing its centroid records
      it with setFace, so its previous face is its face before the frame,
      and everybody else is unchanged. */
  lemma MatchSingleFace(ps: seq<PersonState>, face: Roi)
    ensures var m := MatchAll(ps, [face]);
      var k := FirstContaining(ps, Centroid(face).0, Centroid(face).1);
      && (k.Some? ==> m.persons == ps[k.value := WithFace(ps[k.value], face)])
      && (k.Some? ==> m.persons[k.value].prevFace == Some(ps[k.value].face) && m.persons[k.value].face == face)
      && (k.None? ==> m.persons == ps + [NewPerson(face)])
  {
    assert [face][..0] == [];
  }

  /** Matching keeps the persons' states valid. */
  lemma {:induction false} MatchAllValid(cfg: Config, ps: seq<PersonState>, faces: seq<Roi>)
    requires forall i :: 0 <= i < |ps| ==> Valid(cfg, ps[i])
    ensures forall i :: 0 <= i < |MatchAll(ps, faces).persons| ==> Valid(cfg, MatchAll(ps, faces).persons[i])
    decreases |faces|
  {
    if faces != [] {
      MatchAllValid(cfg, ps, faces[..|faces| - 1]);
      var m := MatchAll(ps, faces[..|faces| - 1]);
      var face := faces[|faces| - 1];
      var (cx, cy) := Centroid(face);
      var k := FirstContaining(m.persons, cx, cy);
      if k.Some? {
        var q := m.persons[k.value];
        assert Valid(cfg, q);
        assert WithFace(q, face).(face := q.face, prevFace := q.prevFace) == q;
      } else {
        assert Valid(cfg, NewPerson(face));
      }
    }
  }

  // ---------------------------------------------------------------------
  // Analyzing the survivors

  /** What one person's analysis does, as a partial function of its state. */
  type Step<!S> = S --> (S, Outcome)

  /** Every person the loop reaches from position i on, each of them up to
      and including the first that raises, satisfies `can` and may take the
      step. */
  ghost predicate Reached<S>(step: Step<S>, can: S -> bool, ss: seq<S>, i: nat)
    decreases |ss| - i
  {
    i >= |ss| || (can(ss[i]) && step.requires(ss[i]) && (Raised(step(ss[i]).1) || Reached(step, can, ss, i + 1)))
  }

  /** What holds of every person holds of every person reached. */
  lemma {:induction false} ReachedOfAll<S>(step: Step<S>, can: S -> bool, ss: seq<S>, i: nat)
    requires forall k :: i <= k < |ss| ==> can(ss[k]) && step.requires(ss[k])
    ensures Reached(step, can, ss, i)
    decreases |ss| - i
  {
    if i < |ss| {
      ReachedOfAll(step, can, ss, i + 1);
    }
  }

  /** The analysis loop from position i on, with the states `done` and
      outcomes `outs` of the persons before i: each person analyzes the
      frame in list order; an exception raised by one person ends the loop
      and leaves the rest as they are. */
  function RunFrom<S>(step: Step<S>, can: S -> bool, ss: seq<S>, i: nat, done: seq<S>, outs: seq<Outcome>):
    (r: (seq<S>, seq<Outcome>))
    requires i <= |ss|
    requires Reached(step, can, ss, i)
    decreases |ss| - i
  {
    if i == |ss| then (done, outs)
    else
      var (s, o) := step(ss[i]);
      if Raised(o) then (done + [s] + ss[i + 1..], outs + [o])
      else RunFrom(step, can, ss, i + 1, done + [s], outs + [o])
  }

  /** One iteration of the analysis loop at a person it reaches. */
  lemma RunFromStep<S>(step: Step<S>, can: S -> bool, ss: seq<S>, i: nat, done: seq<S>, outs: seq<Outcome>)
    requires i < |ss| && Reached(step, can, ss, i)
    ensures can(ss[i]) && step.requires(ss[i])
    ensures var (s, o) := step(ss[i]);
      && (Raised(o) ==> RunFrom(step, can, ss, i, done, outs) == (done + [s] + ss[i + 1..], outs + [o]))
      && (!Raised(o) ==>
            Reached(step, can, ss, i + 1) &&
            RunFrom(step, can, ss, i, done, outs) == RunFrom(step, can, ss, i + 1, done + [s], outs + [o]))
  {
  }

  /** The whole analysis loop. */
  function RunAll<S>(step: Step<S>, can: S -> bool, ss: seq<S>): (seq<S>, seq<Outcome>)
    requires Reached(step, can, ss, 0)
  {
    RunFrom(step, can, ss, 0, [], [])
  }

  lemma {:induction false} RunFromEach<S>(step: Step<S>, can: S -> bool, ss: seq<S>, i: nat, done: seq<S>, outs: seq<Outcome>)
    requires i <= |ss| && |done| == i && |outs| == i
    requires Reached(step, can, ss, i)
    requires forall k :: 0 <= k < i ==>
      can(ss[k]) && step.requires(ss[k]) && (done[k], outs[k]) == step(ss[k]) && !Raised(outs[k])
    ensures var (rs, os) := RunFrom(step, can, ss, i, done, outs);
      && |rs| == |ss| && i <= |os| <= |ss|
      && (forall k :: 0 <= k < |os| ==> can(ss[k]) && step.requires(ss[k]) && (rs[k], os[k]) == step(ss[k]))
      && (forall k :: |os| <= k < |ss| ==> rs[k] == ss[k])
      && (forall k :: 0 <= k < |os| - 1 ==> !Raised(os[k]))
      && (|os| < |ss| ==> |os| > 0 && Raised(os[|os| - 1]))
    decreases |ss| - i
  {
    if i < |ss| {
      var (s, o) := step(ss[i]);
      if !Raised(o) {
        RunFromEach(step, can, ss, i + 1, done + [s], outs + [o]);
      }
    }
  }

  /** Every person before the first exception is analyzed exactly once, the
      one that raises is analyzed, and the persons after it are untouched. */
  lemma RunAllEach<S>(step: Step<S>, can: S -> bool, ss: seq<S>)
    requires Reached(step, can, ss, 0)
    ensures var (rs, os) := RunAll(step, can, ss);
      && |rs| == |ss| && |os| <= |ss|
      && (forall i :: 0 <= i < |os| ==> can(ss[i]) && step.requires(ss[i]) && (rs[i], os[i]) == step(ss[i]))
      && (forall i :: |os| <= i < |ss| ==> rs[i] == ss[i])
      && (forall i :: 0 <= i < |os| - 1 ==> !Raised(os[i]))
      && (|os| < |ss| ==> |os| > 0 && Raised(os[|os| - 1]))
  {
    RunFromEach(step, can, ss, 0, [], []);
  }

  /** `Person.analyze` of one person with the frame's time and channel. */
  function AnalysisStep(cfg: Config, num: Numerics, t: real, im: Channel): (step: Step<PersonState>)
    ensures forall s :: Analyzable(cfg, t, im)(s) ==>
      step.requires(s) && step(s) == Analyzed(cfg, num, s, t, im)
  {
    s requires ConfigOk(cfg) && Valid(cfg, s) && Ready(cfg, s, t, im) => Analyzed(cfg, num, s, t, im)
  }

  /** Which persons may analyze the frame. */
  function Analyzable(cfg: Config, t: real, im: Channel): (can: PersonState -> bool)
    ensures forall s :: can(s) <==> ConfigOk(cfg) && Valid(cfg, s) && Ready(cfg, s, t, im)
  {
    s => ConfigOk(cfg) && Valid(cfg, s) && Ready(cfg, s, t, im)
  }

  /** The analysis loop keeps every person's state valid. */
  lemma AnalysisKeepsValid(cfg: Config, num: Numerics, ss: seq<PersonState>, t: real, im: Channel)
    requires ConfigOk(cfg)
    requires forall i :: 0 <= i < |ss| ==> Valid(cfg, ss[i])
    requires Reached(AnalysisStep(cfg, num, t, im), Analyzable(cfg, t, im), ss, 0)
    ensures var rs := RunAll(AnalysisStep(cfg, num, t, im), Analyzable(cfg, t, im), ss).0;
      forall i :: 0 <= i < |rs| ==> Valid(cfg, rs[i])
  {
    var step := AnalysisStep(cfg, num, t, im);
    var can := Analyzable(cfg, t, im);
    RunAllEach(step, can, ss);
    var (rs, os) := RunAll(step, can, ss);
    forall i | 0 <= i < |rs|
      ensures Valid(cfg, rs[i])
    {
      if i < |os| {
        AnalyzedValid(cfg, num, ss[i], t, im);
      }
    }
  }

  // ---------------------------------------------------------------------
  // The whole frame

  /** The persons kept after matching the faces: `[p for p in persons if p
      in present]`. */
  function Matched(ps: seq<PersonState>, faces: seq<Roi>): seq<PersonState>
  {
    var m := MatchAll(ps, faces);
    Survivors(m.persons, m.present)
  }

  /** What `analyze` needs: every known person is valid, the frame is a
      raster, and every kept person the analysis loop reaches may analyze
      it. */
  ghost predicate SceneReady(cfg: Config, num: Numerics, ps: seq<PersonState>, faces: seq<Roi>, f: Frame)
  {
    && ConfigOk(cfg)
    && WellFormed(f)
    && (forall i :: 0 <= i < |ps| ==> Valid(cfg, ps[i]))
    && Reached(AnalysisStep(cfg, num, f.time, Green(f)), Analyzable(cfg, f.time, Green(f)), Matched(ps, faces), 0)
  }

  /** `analyze` asks readiness only of the kept persons its loop reaches;
      every kept person being ready is one way to meet that. */
  lemma SceneReadyOfAll(cfg: Config, num: Numerics, ps: seq<PersonState>, faces: seq<Roi>, f: Frame)
    requires ConfigOk(cfg) && WellFormed(f)
    requires forall i :: 0 <= i < |ps| ==> Valid(cfg, ps[i])
    requires forall k :: 0 <= k < |Matched(ps, faces)| ==> Ready(cfg, Matched(ps, faces)[k], f.time, Green(f))
    ensures SceneReady(cfg, num, ps, faces, f)
  {
    MatchedValid(cfg, ps, faces);
    ReachedOfAll(AnalysisStep(cfg, num, f.time, Green(f)), Analyzable(cfg, f.time, Green(f)), Matched(ps, faces), 0);
  }

  lemma MatchedValid(cfg: Config, ps: seq<PersonState>, faces: seq<Roi>)
    requires forall i :: 0 <= i < |ps| ==> Valid(cfg, ps[i])
    ensures forall k :: 0 <= k < |Matched(ps, faces)| ==> Valid(cfg, Matched(ps, faces)[k])
  {
    MatchAllValid(cfg, ps, faces);
  }

  /** `SceneAnalyzer.analyze`: the new list of persons and the outcome of
      each analysis that ran. */
  function SceneAnalyzed(cfg: Config, num: Numerics, ps: seq<PersonState>, faces: seq<Roi>, f: Frame):
    (r: (seq<PersonState>, seq<Outcome>))
    requires SceneReady(cfg, num, ps, faces, f)
  {
    MatchedValid(cfg, ps, faces);
    RunAll(AnalysisStep(cfg, num, f.time, Green(f)), Analyzable(cfg, f.time, Green(f)), Matched(ps, faces))
  }

  /** At most one person per face survives a frame, and none survives a
      frame without faces. */
  lemma SceneSize(cfg: Config, num: Numerics, ps: seq<PersonState>, faces: seq<Roi>, f: Frame)
    requires SceneReady(cfg, num, ps, faces, f)
    ensures var (rs, os) := SceneAnalyzed(cfg, num, ps, faces, f);
      && |os| <= |rs| == |Matched(ps, faces)| <= |faces|
      && (faces == [] ==> rs == [] && os == [])
  {
    PresentAtMostFaces(ps, faces);
    MatchedValid(cfg, ps, faces);
    RunAllEach(AnalysisStep(cfg, num, f.time, Green(f)), Analyzable(cfg, f.time, Green(f)), Matched(ps, faces));
  }

  /** The persons kept after matching analyze the frame in list order until
      one raises; the rest keep their matched state; all stay valid. */
  lemma SceneEach(cfg: Config, num: Numerics, ps: seq<PersonState>, faces: seq<Roi>, f: Frame)
    requires SceneReady(cfg, num, ps, faces, f)
    ensures var (rs, os) := SceneAnalyzed(cfg, num, ps, faces, f);
      var kept := Matched(ps, faces);
      && |os| <= |rs| == |kept|
      && (forall i :: 0 <= i < |kept| ==> Valid(cfg, kept[i]))
      && (forall i :: 0 <= i < |os| ==>
            Ready(cfg, kept[i], f.time, Green(f)) && (rs[i], os[i]) == Analyzed(cfg, num, kept[i], f.time, Green(f)))
      && (forall i :: |os| <= i < |rs| ==> rs[i] == kept[i])
      && (forall i :: 0 <= i < |os| - 1 ==> !Raised(os[i]))
      && (|os| < |rs| ==> |os| > 0 && Raised(os[|os| - 1]))
      && (forall i :: 0 <= i < |rs| ==> Valid(cfg, rs[i]))
  {
    var kept := Matched(ps, faces);
    MatchedValid(cfg, ps, faces);
    RunAllEach(AnalysisStep(cfg, num, f.time, Green(f)), Analyzable(cfg, f.time, Green(f)), kept);
    AnalysisKeepsValid(cfg, num, kept, f.time, Green(f));
  }

  // ---------------------------------------------------------------------
  // The analyzer object

  /** The flags `p in present` along the list. */
  function Marks<T(==)>(xs: seq<T>, present: set<T>): (flags: seq<bool>)
    ensures |flags| == |xs|
    ensures forall i :: 0 <= i < |xs| ==> (flags[i] <==> xs[i] in present)
  {
    seq(|xs|, i requires 0 <= i < |xs| => xs[i] in present)
  }

  lemma MatchAllSnoc(ps: seq<PersonState>, faces: seq<Roi>, j: nat)
    requires j < |faces|
    ensures MatchAll(ps, faces[..j + 1]) == MatchFace(MatchAll(ps, faces[..j]), faces[j])
  {
    assert faces[..j + 1][..j] == faces[..j];
  }

  /** `flags[i]` says whether `xs[i]` is in `present`. */
  predicate MarkedBy<T>(xs: seq<T>, present: set<T>, flags: seq<bool>)
  {
    |flags| == |xs| && forall i :: 0 <= i < |xs| ==> (flags[i] <==> xs[i] in present)
  }

  lemma MarkedByMarks<T>(xs: seq<T>, present: set<T>, flags: seq<bool>)
    requires MarkedBy(xs, present, flags)
    ensures Marks(xs, present) == flags
  {
  }

  lemma MarkedSet<T>(xs: seq<T>, present: set<T>, flags: seq<bool>, k: nat)
    requires MarkedBy(xs, present, flags) && k < |xs| && Unique(xs)
    ensures MarkedBy(xs, present + {xs[k]}, flags[k := true])
  {
  }

  lemma MarkedAppend<T>(xs: seq<T>, present: set<T>, flags: seq<bool>, x: T)
    requires MarkedBy(xs, present, flags) && x !in present && x !in xs
    ensures MarkedBy(xs + [x], present + {x}, flags + [true])
  {
  }

  /** `SceneAnalyzer`: the persons currently in the scene. */
  class SceneAnalyzer {
    var persons: seq<Person>
    /** Every person this analyzer has held, so that methods may change them. */
    ghost var Repr: set<Person>

    /** The list has no duplicates and holds only persons in `Repr`. */
    ghost predicate Owned()
      reads this
    {
      Unique(persons) && forall i :: 0 <= i < |persons| ==> persons[i] in Repr
    }

    /** The persons' states, in list order. */
    function States(): (ss: seq<PersonState>)
      reads this, persons
      ensures |ss| == |persons|
      ensures forall i :: 0 <= i < |persons| ==> ss[i] == persons[i].State()
    {
      seq(|persons|, i reads this, persons requires 0 <= i < |persons| => persons[i].State())
    }

    constructor()
      ensures Owned() && persons == [] && States() == []
    {
      persons := [];
      Repr := {};
    }

    /** `next((p for p in self.persons if p.contains(cx, cy)), None)`, as a
        position in the list. */
    method Find(cx: real, cy: real) returns (r: Option<nat>)
      ensures r == FirstContaining(States(), cx, cy)
    {
      var i := 0;
      while i < |persons|
        invariant 0 <= i <= |persons|
        invariant forall j :: 0 <= j < i ==> !ClosedContains(persons[j].face, cx, cy)
      {
        var b := persons[i].Contains(cx, cy);
        if b {
          r := Some(i);
          assert r.value < |States()| && ClosedContains(States()[r.value].face, cx, cy);
          ghost var q := FirstContaining(States(), cx, cy);
          assert q.Some? && q.value == i;
          return;
        }
        i := i + 1;
      }
      r := None;
    }

    /** `person.setFace(face)` on the person at position k. */
    method SetFaceAt(k: nat, face: Roi)
      requires k < |persons| && Unique(persons)
      modifies persons[k]
      ensures persons == old(persons)
      ensures States() == old(States())[k := WithFace(old(States())[k], face)]
    {
      persons[k].SetFace(face);
    }

    /** `self.persons.append(Person(face))`. */
    method AddPerson(face: Roi) returns (p: Person)
      modifies this
      ensures fresh(p) && persons == old(persons) + [p] && Repr == old(Repr) + {p}
      ensures States() == old(States()) + [NewPerson(face)]
    {
      p := new Person(face);
      persons := persons + [p];
      Repr := Repr + {p};
    }

    /** One iteration of the matching loop, for one face. */
    method MatchOne(face: Roi, ghost m: Matching, present: set<Person>) returns (present': set<Person>)
      requires Owned() && |m.persons| == |m.present|
      requires States() == m.persons && MarkedBy(persons, present, m.present)
      requires forall q :: q in present ==> q in persons
      modifies this, Repr
      ensures Owned() && fresh(Repr - old(Repr))
      ensures States() == MatchFace(m, face).persons && MarkedBy(persons, present', MatchFace(m, face).present)
      ensures forall q :: q in present' ==> q in persons
    {
      var c := Centroid(face);
      var k := Find(c.0, c.1);
      if k.Some? {
        var p := persons[k.value];
        SetFaceAt(k.value, face);
        MarkedSet(persons, present, m.present, k.value);
        present' := present + {p};
      } else {
        var p := AddPerson(face);
        MarkedAppend(old(persons), present, m.present, p);
        present' := present + {p};
      }
    }

    /** Iteration j of the matching loop, stated against `MatchAll` on the
        first j faces. */
    method MatchStep(faces: seq<Roi>, j: nat, ghost ps: seq<PersonState>, present: set<Person>)
      returns (present': set<Person>)
      requires j < |faces| && Owned()
      requires States() == MatchAll(ps, faces[..j]).persons
      requires MarkedBy(persons, present, MatchAll(ps, faces[..j]).present)
      requires forall q :: q in present ==> q in persons
      modifies this, Repr
      ensures Owned() && fresh(Repr - old(Repr))
      ensures States() == MatchAll(ps, faces[..j + 1]).persons
      ensures MarkedBy(persons, present', MatchAll(ps, faces[..j + 1]).present)
      ensures forall q :: q in present' ==> q in persons
    {
      MatchAllSnoc(ps, faces, j);
      present' := MatchOne(faces[j], MatchAll(ps, faces[..j]), present);
    }

    /** The matching loop of `analyze`: every face goes to the first person
        containing its centroid, or to a new person appended to the list;
        `present` collects those persons. */
    method Match(faces: seq<Roi>) returns (present: set<Person>)
      requires Owned()
      modifies this, Repr
      ensures Owned() && fresh(Repr - old(Repr))
      ensures States() == MatchAll(old(States()), faces).persons
      ensures MarkedBy(persons, present, MatchAll(old(States()), faces).present)
    {
      ghost var ps := States();
      present := {};
      var j := 0;
      while j < |faces|
        invariant 0 <= j <= |faces|
        invariant Owned() && fresh(Repr - old(Repr))
        invariant States() == MatchAll(ps, faces[..j]).persons
        invariant MarkedBy(persons, present, MatchAll(ps, faces[..j]).present)
        invariant forall q :: q in present ==> q in persons
      {
        present := MatchStep(faces, j, ps, present);
        j := j + 1;
      }
      assert faces[..j] == faces;
    }

    /** `self.persons = [p for p in self.persons if p in present]`. */
    method Prune(present: set<Person>)
      modifies this
      ensures Repr == old(Repr)
      ensures persons == Survivors(old(persons), Marks(old(persons), present))
      ensures States() == Survivors(old(States()), Marks(old(persons), present))
    {
      ghost var before := States();
      ghost var xs := persons;
      ghost var flags := Marks(xs, present);
      var kept := [];
      var i := 0;
      while i < |persons|
        invariant persons == xs && Repr == old(Repr)
        invariant 0 <= i <= |xs|
        invariant kept == Survivors(xs[..i], flags[..i])
      {
        SurvivorsSnoc(xs, flags, i);
        if persons[i] in present {
          kept := kept + [persons[i]];
        }
        i := i + 1;
      }
      assert xs[..i] == xs && flags[..i] == flags;
      persons := kept;
      StatesOfSurvivors(xs, before, flags);
    }

    /** The states of the survivors are the survivors of the states. */
    lemma StatesOfSurvivors(xs: seq<Person>, ss: seq<PersonState>, flags: seq<bool>)
      requires |xs| == |ss| == |flags|
      requires forall i :: 0 <= i < |xs| ==> ss[i] == xs[i].State()
      requires persons == Survivors(xs, flags)
      ensures States() == Survivors(ss, flags)
    {
      var idx := Kept(flags);
      assert forall k :: 0 <= k < |persons| ==> persons[k] == xs[idx[k]];
      assert forall k :: 0 <= k < |persons| ==> States()[k] == ss[idx[k]];
    }

    /** `person.analyze(t, im)` for the person at position i. */
    method AnalyzeAt(cfg: Config, num: Numerics, t: real, im: Channel, i: nat) returns (o: Outcome)
      requires i < |persons| && Unique(persons) && ConfigOk(cfg)
      requires Valid(cfg, persons[i].State()) && Ready(cfg, persons[i].State(), t, im)
      modifies persons[i]
      ensures persons == old(persons)
      ensures AnalysisStep(cfg, num, t, im).requires(old(States())[i])
      ensures var (s, o') := AnalysisStep(cfg, num, t, im)(old(States())[i]);
        States() == old(States())[i := s] && o == o'
    {
      o := persons[i].Analyze(cfg, num, t, im);
    }

    /** Iteration i of the analysis loop, stated against `RunFrom`: the
        person at i analyzes the frame, and the loop either stops there or
        goes on from i + 1. */
    method AnalyzeStep(cfg: Config, num: Numerics, t: real, im: Channel, i: nat,
                       ghost ss: seq<PersonState>, ghost cur: seq<PersonState>, ghost outs: seq<Outcome>)
      returns (o: Outcome, ghost cur': seq<PersonState>)
      requires i < |persons| == |ss| == |cur| && Unique(persons) && ConfigOk(cfg)
      requires Reached(AnalysisStep(cfg, num, t, im), Analyzable(cfg, t, im), ss, i)
      requires States() == cur && forall k :: i <= k < |ss| ==> cur[k] == ss[k]
      modifies persons
      ensures States() == cur' && |cur'| == |ss|
      ensures Raised(o) ==>
        RunFrom(AnalysisStep(cfg, num, t, im), Analyzable(cfg, t, im), ss, i, cur[..i], outs) == (cur', outs + [o])
      ensures !Raised(o) ==>
        && Reached(AnalysisStep(cfg, num, t, im), Analyzable(cfg, t, im), ss, i + 1)
        && (forall k :: i + 1 <= k < |ss| ==> cur'[k] == ss[k])
        && RunFrom(AnalysisStep(cfg, num, t, im), Analyzable(cfg, t, im), ss, i, cur[..i], outs) ==
           RunFrom(AnalysisStep(cfg, num, t, im), Analyzable(cfg, t, im), ss, i + 1, cur'[..i + 1], outs + [o])
    {
      ghost var step := AnalysisStep(cfg, num, t, im);
      ghost var can := Analyzable(cfg, t, im);
      RunFromStep(step, can, ss, i, cur[..i], outs);
      o := AnalyzeAt(cfg, num, t, im, i);
      ghost var s := step(ss[i]).0;
      cur' := cur[i := s];
      UpdatePrefix(cur, i, s);
      if Raised(o) {
        UpdateSplit(cur, ss, i, s);
      }
    }

    /** The analysis loop of `analyze`: each person in turn analyzes the
        frame; an exception ends the loop. */
    method AnalyzeEach(cfg: Config, num: Numerics, t: real, im: Channel) returns (outcomes: seq<Outcome>)
      requires Unique(persons) && ConfigOk(cfg)
      requires forall i :: 0 <= i < |persons| ==> Valid(cfg, persons[i].State())
      requires Reached(AnalysisStep(cfg, num, t, im), Analyzable(cfg, t, im), States(), 0)
      modifies persons
      ensures persons == old(persons)
      ensures (States(), outcomes) == RunAll(AnalysisStep(cfg, num, t, im), Analyzable(cfg, t, im), old(States()))
    {
      ghost var step := AnalysisStep(cfg, num, t, im);
      ghost var can := Analyzable(cfg, t, im);
      ghost var ss := States();
      outcomes := [];
      var i := 0;
      ghost var cur := ss;
      while i < |persons|
        invariant 0 <= i <= |persons| == |ss| == |cur|
        invariant Reached(step, can, ss, i)
        invariant States() == cur
        invariant forall k :: i <= k < |ss| ==> cur[k] == ss[k]
        invariant RunAll(step, can, ss) == RunFrom(step, can, ss, i, cur[..i], outcomes)
      {
        var o;
        o, cur := AnalyzeStep(cfg, num, t, im, i, ss, cur, outcomes);
        outcomes := outcomes + [o];
        if Raised(o) {
          return;
        }
        i := i + 1;
      }
      assert cur[..i] == cur;
    }

    /** The bookkeeping part of `analyze`: match the faces, then keep the
        present persons. */
    method Rematch(faces: seq<Roi>)
      requires Owned()
      modifies this, Repr
      ensures Owned() && fresh(Repr - old(Repr))
      ensures States() == Matched(old(States()), faces)
    {
      ghost var m := MatchAll(States(), faces);
      var present := Match(faces);
      ghost var matched := persons;
      MarkedByMarks(matched, present, m.present);
      Prune(present);
      assert persons == Survivors(matched, m.present);
      assert States() == Survivors(m.persons, m.present);
      SurvivorsFrom(matched, m.present);
    }

    /** `analyze(frame, faces)`: returns the new list of persons with the
        outcome of each analysis that ran. */
    method Analyze(cfg: Config, num: Numerics, frame: Frame, faces: seq<Roi>)
      returns (result: seq<Person>, outcomes: seq<Outcome>)
      requires Owned()
      requires SceneReady(cfg, num, States(), faces, frame)
      modifies this, Repr
      ensures Owned() && fresh(Repr - old(Repr)) && result == persons
      ensures (States(), outcomes) == SceneAnalyzed(cfg, num, old(States()), faces, frame)
    {
      ghost var ps := States();
      Rematch(faces);
      MatchedValid(cfg, ps, faces);
      var green := Green(frame);
      outcomes := AnalyzeEach(cfg, num, frame.time, green);
      result := persons;
    }
  }
}
