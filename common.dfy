/** Values shared by the stages of the heart-rate pipeline: rectangles, the
    configuration constants, and the few Python semantics the stages rely on
    (int() of a float, slicing with negative or out-of-range bounds). */
module Common {

  datatype Option<T> = None | Some(value: T)

  /** A region of interest: top-left corner, width and height, in pixels. */
  datatype Roi = Roi(x: real, y: real, w: real, h: real)

  /** The centroid of a rectangle. */
  function Centroid(r: Roi): (c: (real, real))
    ensures c.0 - r.x == r.x + r.w - c.0
    ensures c.1 - r.y == r.y + r.h - c.1
  {
    (r.x + r.w / 2.0, r.y + r.h / 2.0)
  }

  /** The numeric settings of the application.  Each can be overridden by the
      user, so every operation takes them as a parameter. */
  datatype Config = Config(
    minBpm: real,               // lowest plausible heart rate
    maxBpm: real,               // highest plausible heart rate
    startupTime: real,          // seconds ignored after a person first appears
    maxSamples: nat,            // capacity of every rolling buffer of a person
    avBpmPeriod: real,          // seconds of BPM history in one running average
    faceDetectPause: real,      // minimum seconds between two face detections
    faceTrackingTimeout: real)  // seconds a tracker survives without tracking

  /** The shipped defaults. */
  const Defaults := Config(40.0, 180.0, 1.5, 256, 1.0, 1.0, 5.0)

  /** What the stages need of a configuration: a buffer that is full can give
      up its oldest element, and the averaging period is not negative. */
  predicate ConfigOk(cfg: Config)
  {
    cfg.maxSamples >= 1 && cfg.avBpmPeriod >= 0.0
  }

  /** Python's int() of a float: truncation toward zero. */
  function Trunc(r: real): (i: int)
    ensures r >= 0.0 ==> i as real <= r < i as real + 1.0
    ensures r < 0.0 ==> i as real - 1.0 < r <= i as real
  {
    if r >= 0.0 then r.Floor else -((-r).Floor)
  }

  /** A half-open range of indices [lo, hi). */
  datatype Span = Span(lo: nat, hi: nat)
  {
    function Size(): nat
      requires lo <= hi
    {
      hi - lo
    }
  }

  /** How Python resolves one bound of a slice of a sequence of length n:
      negative bounds count from the end, and bounds are clamped to [0, n]. */
  function PyIndex(i: int, n: nat): (k: nat)
    ensures k <= n
    ensures 0 <= i <= n ==> k == i
    ensures -(n as int) <= i < 0 ==> k == n as int + i
    ensures i < -(n as int) ==> k == 0
    ensures i > n ==> k == n
  {
    if i < 0 then (if i + n < 0 then 0 else i + n)
    else if i > n then n
    else i
  }

  /** The indices selected by the Python slice [i:j] of a sequence of length n. */
  function PySlice(i: int, j: int, n: nat): (s: Span)
    ensures s.lo <= s.hi <= n
    ensures s.lo == PyIndex(i, n)
    ensures s.hi == if PyIndex(i, n) < PyIndex(j, n) then PyIndex(j, n) else PyIndex(i, n)
  {
    var a, b := PyIndex(i, n), PyIndex(j, n);
    if a < b then Span(a, b) else Span(a, a)
  }

  /** Strictly increasing sequence of reals. */
  predicate Increasing(s: seq<real>)
  {
    forall i, j :: 0 <= i < j < |s| ==> s[i] < s[j]
  }

  function Sum(s: seq<real>): real
  {
    if s == [] then 0.0 else Sum(s[..|s| - 1]) + s[|s| - 1]
  }

  /** numpy.average of a non-empty sequence. */
  function Mean(s: seq<real>): real
    requires |s| > 0
  {
    Sum(s) / |s| as real
  }

  /** Every element lies in [lo, hi]. */
  predicate AllWithin(s: seq<real>, lo: real, hi: real)
  {
    forall i :: 0 <= i < |s| ==> lo <= s[i] <= hi
  }

  lemma {:induction false} SumWithin(s: seq<real>, lo: real, hi: real)
    requires AllWithin(s, lo, hi)
    ensures lo * |s| as real <= Sum(s) <= hi * |s| as real
  {
    if s != [] {
      var n := |s| as real;
      SumWithin(s[..|s| - 1], lo, hi);
      assert lo * n == lo * (n - 1.0) + lo && hi * n == hi * (n - 1.0) + hi;
    }
  }

  /** The mean of values in [lo, hi] lies in [lo, hi]. */
  lemma MeanWithin(s: seq<real>, lo: real, hi: real)
    requires |s| > 0 && AllWithin(s, lo, hi)
    ensures lo <= Mean(s) <= hi
  {
    SumWithin(s, lo, hi);
    var n := |s| as real;
    DivBetween(Sum(s), n, lo, hi);
  }

  lemma DivBetween(a: real, n: real, lo: real, hi: real)
    requires n > 0.0 && lo * n <= a <= hi * n
    ensures lo <= a / n <= hi
  {
  }

  // ---------------------------------------------------------------------
  // Filtering and updating lists

  function Count(flags: seq<bool>): nat
  {
    if flags == [] then 0
    else Count(flags[..|flags| - 1]) + (if flags[|flags| - 1] then 1 else 0)
  }

  /** The positions of the set flags, in increasing order. */
  function Kept(flags: seq<bool>): (idx: seq<nat>)
    ensures |idx| == Count(flags)
    ensures forall k :: 0 <= k < |idx| ==> idx[k] < |flags| && flags[idx[k]]
    ensures forall k, l :: 0 <= k < l < |idx| ==> idx[k] < idx[l]
    ensures forall i :: 0 <= i < |flags| && flags[i] ==> i in idx
  {
    if flags == [] then []
    else
      var n := |flags| - 1;
      var rest := Kept(flags[..n]);
      assert forall i :: 0 <= i < n ==> flags[..n][i] == flags[i];
      if flags[n] then rest + [n] else rest
  }

  /** The elements whose flag is set, in list order: `[x for x, f in zip(xs, flags) if f]`. */
  function Survivors<T>(xs: seq<T>, flags: seq<bool>): (r: seq<T>)
    requires |xs| == |flags|
    ensures |r| == Count(flags)
  {
    var idx := Kept(flags);
    seq(|idx|, k requires 0 <= k < |idx| => xs[idx[k]])
  }

  /** The survivors are exactly the flagged elements, in their order in the
      list. */
  lemma SurvivorsExactly<T>(xs: seq<T>, flags: seq<bool>)
    requires |xs| == |flags|
    ensures forall i :: 0 <= i < |xs| && flags[i] ==> xs[i] in Survivors(xs, flags)
    ensures forall k :: 0 <= k < |Survivors(xs, flags)| ==>
      Survivors(xs, flags)[k] == xs[Kept(flags)[k]] && flags[Kept(flags)[k]]
  {
    var idx := Kept(flags);
    forall i | 0 <= i < |xs| && flags[i]
      ensures xs[i] in Survivors(xs, flags)
    {
      var k :| 0 <= k < |idx| && idx[k] == i;
      assert Survivors(xs, flags)[k] == xs[i];
    }
  }

  /** No object occurs twice in the list. */
  predicate Unique<T(==)>(xs: seq<T>)
  {
    forall i, j :: 0 <= i < j < |xs| ==> xs[i] != xs[j]
  }

  /** Extending the list by one element extends the survivors by it when it
      is flagged. */
  lemma SurvivorsSnoc<T>(xs: seq<T>, flags: seq<bool>, i: nat)
    requires |xs| == |flags| && i < |xs|
    ensures Survivors(xs[..i + 1], flags[..i + 1])
      == Survivors(xs[..i], flags[..i]) + (if flags[i] then [xs[i]] else [])
  {
    assert flags[..i + 1][..i] == flags[..i];
  }

  /** Survivors come from the list, and a list without repetitions has
      survivors without repetitions. */
  lemma SurvivorsFrom<T>(xs: seq<T>, flags: seq<bool>)
    requires |xs| == |flags|
    ensures forall k :: 0 <= k < |Survivors(xs, flags)| ==>
      Kept(flags)[k] < |xs| && Survivors(xs, flags)[k] == xs[Kept(flags)[k]]
    ensures Unique(xs) ==> Unique(Survivors(xs, flags))
  {
    var idx := Kept(flags);
    assert forall k :: 0 <= k < |idx| ==> Survivors(xs, flags)[k] == xs[idx[k]];
  }

  lemma UpdatePrefix<S>(xs: seq<S>, i: nat, x: S)
    requires i < |xs|
    ensures xs[i := x][..i + 1] == xs[..i] + [x]
  {
  }

  lemma UpdateSplit<S>(xs: seq<S>, ys: seq<S>, i: nat, x: S)
    requires i < |xs| == |ys|
    requires forall k :: i < k < |xs| ==> xs[k] == ys[k]
    ensures xs[i := x] == xs[..i] + [x] + ys[i + 1..]
  {
  }
}
