/** The per-person signal processor: rolling sample buffers, region-averaged
    green-channel samples, a correction factor that hides jumps of the face
    region, the band-limited power spectrum and its peak, and the BPM
    histories.  The SciPy/NumPy numerics are the oracle functions of
    `Numerics`; everything around them is modelled here. */
module PersonSignal {
  import opened Common

  // ---------------------------------------------------------------------
  // Images and the region-averaged sample

  type Byte = b: int | 0 <= b < 256

  /** One colour channel of a frame: `rows` rows of `width` pixels each. */
  datatype Channel = Channel(width: nat, rows: seq<seq<Byte>>)

  predicate IsRaster(im: Channel)
  {
    forall r :: 0 <= r < |im.rows| ==> |im.rows[r]| == im.width
  }

  /** Sum of row[lo..hi]. */
  function RowSum(row: seq<Byte>, lo: nat, hi: nat): (s: int)
    requires lo <= hi <= |row|
    ensures 0 <= s <= 255 * (hi - lo)
    decreases hi
  {
    if hi == lo then 0 else RowSum(row, lo, hi - 1) + row[hi - 1]
  }

  /** Number of pixels in rows `rs` and columns `cs`, counted row by row. */
  function BlockCount(rs: Span, cs: Span): (n: nat)
    requires rs.lo <= rs.hi && cs.lo <= cs.hi
    decreases rs.hi
  {
    if rs.hi == rs.lo then 0 else BlockCount(Span(rs.lo, rs.hi - 1), cs) + cs.Size()
  }

  lemma {:induction false} BlockCountIsArea(rs: Span, cs: Span)
    requires rs.lo <= rs.hi && cs.lo <= cs.hi
    ensures BlockCount(rs, cs) == rs.Size() * cs.Size()
    decreases rs.hi
  {
    if rs.hi > rs.lo {
      BlockCountIsArea(Span(rs.lo, rs.hi - 1), cs);
      assert rs.Size() * cs.Size() == (rs.hi - 1 - rs.lo) * cs.Size() + cs.Size();
    }
  }

  /** Sum of the pixels in rows `rs` and columns `cs` of a raster. */
  function BlockSum(im: Channel, rs: Span, cs: Span): (s: int)
    requires IsRaster(im)
    requires rs.lo <= rs.hi <= |im.rows| && cs.lo <= cs.hi <= im.width
    ensures 0 <= s <= 255 * BlockCount(rs, cs)
    decreases rs.hi
  {
    if rs.hi == rs.lo then 0
    else BlockSum(im, Span(rs.lo, rs.hi - 1), cs) + RowSum(im.rows[rs.hi - 1], cs.lo, cs.hi)
  }

  /** The two bands of a face box that are averaged: the top quarter
      (forehead) and the third quarter (nose and cheeks), both over the full
      width.  The box is truncated to whole pixels as Python's int() does and
      the bands are cut out with NumPy's slicing rules. */
  datatype Bands = Bands(forehead: Span, nose: Span, cols: Span)

  function SampleBands(im: Channel, face: Roi): (b: Bands)
    ensures BandsFit(im, b)
  {
    var x, y, w, h := Trunc(face.x), Trunc(face.y), Trunc(face.w), Trunc(face.h);
    Bands(PySlice(y, y + h / 4, |im.rows|),
          PySlice(y + h / 2, y + (3 * h) / 4, |im.rows|),
          PySlice(x, x + w, im.width))
  }

  predicate BandsFit(im: Channel, b: Bands)
  {
    b.forehead.lo <= b.forehead.hi <= |im.rows| &&
    b.nose.lo <= b.nose.hi <= |im.rows| &&
    b.cols.lo <= b.cols.hi <= im.width
  }

  /** Number of pixels in the two bands. */
  function BandsCount(b: Bands): nat
    requires b.forehead.lo <= b.forehead.hi && b.nose.lo <= b.nose.hi && b.cols.lo <= b.cols.hi
  {
    BlockCount(b.forehead, b.cols) + BlockCount(b.nose, b.cols)
  }

  /** Mean over the two bands, or the neutral value when they are empty. */
  function BandsMean(im: Channel, b: Bands): real
    requires IsRaster(im) && BandsFit(im, b)
  {
    var n := BandsCount(b);
    if n == 0 then NeutralSample
    else (BlockSum(im, b.forehead, b.cols) + BlockSum(im, b.nose, b.cols)) as real / n as real
  }

  /** Number of pixels the sample of a face averages over. */
  function SampleCount(im: Channel, face: Roi): nat
  {
    BandsCount(SampleBands(im, face))
  }

  /** The neutral value used for an empty region. */
  const NeutralSample := 128.0

  /** `_getSignal`: mean intensity over the forehead and nose bands of the
      face, or the neutral value when both are empty. */
  function Signal(im: Channel, face: Roi): real
    requires IsRaster(im)
  {
    BandsMean(im, SampleBands(im, face))
  }

  lemma BandsMeanRange(im: Channel, b: Bands)
    requires IsRaster(im) && BandsFit(im, b)
    ensures 0.0 <= BandsMean(im, b) <= 255.0
  {
    var n := BandsCount(b);
    if n > 0 {
      var s := BlockSum(im, b.forehead, b.cols) + BlockSum(im, b.nose, b.cols);
      assert 0 <= s <= 255 * n;
      DivBetween(s as real, n as real, 0.0, 255.0);
    }
  }

  /** For byte pixels the sample is a byte value, and it is the neutral
      value when the bands hold no pixel. */
  lemma SignalRange(im: Channel, face: Roi)
    requires IsRaster(im)
    ensures 0.0 <= Signal(im, face) <= 255.0
    ensures SampleCount(im, face) == 0 ==> Signal(im, face) == NeutralSample
  {
    BandsMeanRange(im, SampleBands(im, face));
  }

  predicate Uniform(im: Channel, c: Byte)
  {
    forall r, k :: 0 <= r < |im.rows| && 0 <= k < |im.rows[r]| ==> im.rows[r][k] == c
  }

  lemma {:induction false} RowSumUniform(row: seq<Byte>, lo: nat, hi: nat, c: Byte)
    requires lo <= hi <= |row|
    requires forall k :: 0 <= k < |row| ==> row[k] == c
    ensures RowSum(row, lo, hi) == c * (hi - lo)
    decreases hi
  {
    if hi > lo {
      RowSumUniform(row, lo, hi - 1, c);
    }
  }

  lemma {:induction false} BlockSumUniform(im: Channel, rs: Span, cs: Span, c: Byte)
    requires IsRaster(im) && Uniform(im, c)
    requires rs.lo <= rs.hi <= |im.rows| && cs.lo <= cs.hi <= im.width
    ensures BlockSum(im, rs, cs) == c * BlockCount(rs, cs)
    decreases rs.hi
  {
    if rs.hi > rs.lo {
      var shorter := Span(rs.lo, rs.hi - 1);
      var row := im.rows[rs.hi - 1];
      var a, b := BlockSum(im, shorter, cs), RowSum(row, cs.lo, cs.hi);
      assert a == c * BlockCount(shorter, cs) by {
        BlockSumUniform(im, shorter, cs, c);
      }
      assert b == c * cs.Size() by {
        RowSumUniform(row, cs.lo, cs.hi, c);
      }
      assert BlockSum(im, rs, cs) == a + b;
      assert BlockCount(rs, cs) == BlockCount(shorter, cs) + cs.Size();
      Distribute(c, BlockCount(shorter, cs), cs.Size());
    }
  }

  lemma BandsMeanUniform(im: Channel, b: Bands, c: Byte)
    requires IsRaster(im) && BandsFit(im, b) && Uniform(im, c)
    requires BandsCount(b) > 0
    ensures BandsMean(im, b) == c as real
  {
    var n1, n2 := BlockCount(b.forehead, b.cols), BlockCount(b.nose, b.cols);
    var s1, s2 := BlockSum(im, b.forehead, b.cols), BlockSum(im, b.nose, b.cols);
    assert s1 == c * n1 by {
      BlockSumUniform(im, b.forehead, b.cols, c);
    }
    assert s2 == c * n2 by {
      BlockSumUniform(im, b.nose, b.cols, c);
    }
    Distribute(c, n1, n2);
    RatioOfMultiple(s1 + s2, c, n1 + n2);
  }

  /** On an image of constant intensity c the sample of any region that
      holds a pixel is c: the sample is a mean, not a sum. */
  lemma SignalOfUniform(im: Channel, face: Roi, c: Byte)
    requires IsRaster(im) && Uniform(im, c)
    requires SampleCount(im, face) > 0
    ensures Signal(im, face) == c as real
  {
    BandsMeanUniform(im, SampleBands(im, face), c);
  }

  lemma Distribute(c: int, a: int, b: int)
    ensures c * (a + b) == c * a + c * b
  {
  }

  lemma QuotientOfMultiple(c: real, n: real)
    requires n != 0.0
    ensures (c * n) / n == c
  {
  }

  lemma RatioOfMultiple(total: int, c: int, n: int)
    requires n > 0 && total == c * n
    ensures total as real / n as real == c as real
  {
    assert total as real == c as real * n as real;
  }

  // ---------------------------------------------------------------------
  // Sampling rate, filter guard, spectrum

  /** The last time is later than the first. */
  predicate Spread(times: seq<real>)
  {
    |times| >= 2 ==> times[0] < times[|times| - 1]
  }

  /** `_getFPS`: average frames per second over the buffered sample times. */
  function Fps(times: seq<real>): (fps: real)
    requires Spread(times)
    ensures |times| < 2 ==> fps == 0.0
    ensures |times| >= 2 ==> fps > 0.0
    ensures |times| >= 2 ==> fps * (times[|times| - 1] - times[0]) == (|times| - 1) as real
  {
    if |times| >= 2 then
      var n, d := (|times| - 1) as real, times[|times| - 1] - times[0];
      QuotientPositive(n, d);
      n / d
    else 0.0
  }

  lemma QuotientPositive(n: real, d: real)
    requires n > 0.0 && d > 0.0
    ensures n / d > 0.0 && (n / d) * d == n
  {
  }

  /** Fewest samples the Butterworth band-pass design accepts. */
  const MinFilterSamples := 22

  /** The fitted parabola a*x^2 + b*x + c. */
  datatype Quadratic = Quadratic(a: real, b: real, c: real)

  /** The numerical library routines, left uninterpreted:
      `bandpass(times, data, low, high)` resamples `data` onto a uniform grid
      and applies the zero-phase third-order Butterworth band-pass with edges
      `low` and `high` (fractions of the Nyquist frequency);
      `magnitude(data)` is the magnitude of the 8x zero-padded real FFT of the
      Hann-windowed data; `polyfit(xs, ys)` is the least-squares parabola. */
  datatype Numerics = Numerics(
    bandpass: (seq<real>, seq<real>, real, real) -> seq<real>,
    magnitude: seq<real> -> seq<real>,
    polyfit: (seq<real>, seq<real>) -> Quadratic)

  function Min1(r: real): real
  {
    if r < 1.0 then r else 1.0
  }

  /** `_filter`: empty below 22 samples, otherwise the band-passed series
      with the configured BPM band as fractions of the Nyquist frequency. */
  function Filtered(cfg: Config, num: Numerics, times: seq<real>, data: seq<real>, nyquist: real): (r: seq<real>)
    requires |data| >= MinFilterSamples ==> nyquist != 0.0
    ensures |data| < MinFilterSamples ==> r == []
  {
    if |data| < MinFilterSamples then []
    else
      num.bandpass(times, data,
                   Min1(cfg.minBpm / 60.0 / nyquist),
                   Min1(cfg.maxBpm / 60.0 / nyquist))
  }

  /** numpy.linspace(start, stop, n) with its end point included. */
  function Linspace(start: real, stop: real, n: nat): (r: seq<real>)
    ensures |r| == n
    ensures n > 0 ==> r[0] == start
    ensures n > 1 ==> r[n - 1] == stop
  {
    if n == 1 then [start]
    else
      var step := (stop - start) / (n - 1) as real;
      assert (n - 1) as real * step == stop - start;
      seq(n, i => start + i as real * step)
  }

  predicate InBand(cfg: Config, f: real)
  {
    cfg.minBpm <= f <= cfg.maxBpm
  }

  /** The bins whose frequency lies in the configured band, in order. */
  function Restrict(cfg: Config, freqs: seq<real>, mags: seq<real>): (r: (seq<real>, seq<real>))
    requires |freqs| == |mags|
    ensures |r.0| == |r.1| <= |freqs|
    ensures forall i :: 0 <= i < |r.0| ==> InBand(cfg, r.0[i])
    ensures r.0 == [] <==> forall i :: 0 <= i < |freqs| ==> !InBand(cfg, freqs[i])
    decreases |freqs|
  {
    if freqs == [] then ([], [])
    else
      var rest := Restrict(cfg, freqs[1..], mags[1..]);
      assert forall i :: 1 <= i < |freqs| ==> freqs[i] == freqs[1..][i - 1];
      if InBand(cfg, freqs[0]) then ([freqs[0]] + rest.0, [mags[0]] + rest.1) else rest
  }

  function MaxOf(y: seq<real>): real
    requires |y| > 0
  {
    y[ArgMax(y)]
  }

  /** Normalise by the peak magnitude and square.  When the peak magnitude is
      zero NumPy produces NaN powers; they are represented by 0.0. */
  function Power(mags: seq<real>): (p: seq<real>)
    requires |mags| > 0
    ensures |p| == |mags|
  {
    var m := MaxOf(mags);
    if m == 0.0 then seq(|mags|, i => 0.0)
    else seq(|mags|, i requires 0 <= i < |mags| => (mags[i] / m) * (mags[i] / m))
  }

  /** For genuine magnitudes the powers lie in [0, 1] and the strongest bin
      has power exactly 1 (or the spectrum is flat). */
  lemma PowerNormalised(mags: seq<real>)
    requires |mags| > 0 && AllWithin(mags, 0.0, MaxOf(mags))
    ensures AllWithin(Power(mags), 0.0, 1.0)
    ensures MaxOf(mags) != 0.0 ==> Power(mags)[ArgMax(mags)] == 1.0
  {
    var m := MaxOf(mags);
    var p := Power(mags);
    if m != 0.0 {
      forall i | 0 <= i < |mags| ensures 0.0 <= p[i] <= 1.0 {
        PowerAt(mags, i);
      }
      PowerAtMax(mags);
    } else {
      assert forall i :: 0 <= i < |p| ==> p[i] == 0.0;
    }
  }

  lemma PowerAtMax(mags: seq<real>)
    requires |mags| > 0 && MaxOf(mags) != 0.0
    ensures Power(mags)[ArgMax(mags)] == 1.0
  {
    var k := ArgMax(mags);
    var q := mags[k] / MaxOf(mags);
    assert Power(mags)[k] == q * q;
    SelfQuotient(mags[k]);
  }

  lemma SelfQuotient(m: real)
    requires m != 0.0
    ensures (m / m) * (m / m) == 1.0
  {
    QuotientOfMultiple(1.0, m);
    assert 1.0 * m == m;
  }

  lemma PowerAt(mags: seq<real>, i: nat)
    requires i < |mags| && MaxOf(mags) != 0.0 && AllWithin(mags, 0.0, MaxOf(mags))
    ensures 0.0 <= Power(mags)[i] <= 1.0
  {
    UnitSquare(mags[i], MaxOf(mags));
  }

  lemma UnitSquare(a: real, m: real)
    requires 0.0 <= a <= m && m != 0.0
    ensures 0.0 <= (a / m) * (a / m) <= 1.0
  {
    DivBetween(a, m, 0.0, 1.0);
    var q := a / m;
    assert q * q <= q * 1.0;
  }

  /** `_createSpectrum` after the FFT: the frequency axis in cycles per
      minute, the bins restricted to the BPM band, normalised power.  None
      when no bin is in the band (NumPy's max of an empty array raises). */
  function Spectrum(cfg: Config, mags: seq<real>, nyquist: real): (r: Option<(seq<real>, seq<real>)>)
    ensures r.Some? ==> |r.value.0| == |r.value.1| > 0
    ensures r.Some? ==> forall i :: 0 <= i < |r.value.0| ==> InBand(cfg, r.value.0[i])
  {
    var freqs := Linspace(0.0, nyquist * 60.0, |mags|);
    var band := Restrict(cfg, freqs, mags);
    if band.0 == [] then None else Some((band.0, Power(band.1)))
  }

  // ---------------------------------------------------------------------
  // Peak search

  /** numpy.argmax: the first index of the largest value. */
  function ArgMax(y: seq<real>): (k: nat)
    requires |y| > 0
    ensures k < |y|
    ensures forall i :: 0 <= i < |y| ==> y[i] <= y[k]
    ensures forall i :: 0 <= i < k ==> y[i] < y[k]
  {
    ArgMaxOf(y, |y|)
  }

  /** The first index of the largest value among the first n. */
  function ArgMaxOf(y: seq<real>, n: nat): (k: nat)
    requires 1 <= n <= |y|
    ensures k < n
    ensures forall i :: 0 <= i < n ==> y[i] <= y[k]
    ensures forall i :: 0 <= i < k ==> y[i] < y[k]
  {
    if n == 1 then 0
    else
      var k := ArgMaxOf(y, n - 1);
      if y[n - 1] > y[k] then n - 1 else k
  }

  /** Where the walk to the left of the peak stops: the bin l such that every
      bin from l up to the start lies at or above the threshold and the bin
      left of l does not (or l is bin 1). */
  function LeftEdge(y: seq<real>, start: nat, threshold: real): (l: nat)
    requires 1 <= start < |y|
    ensures 1 <= l <= start
    ensures forall k :: l <= k < start ==> y[k] >= threshold
    ensures l == 1 || y[l - 1] < threshold
    decreases start
  {
    if y[start - 1] < threshold || start == 1 then start
    else LeftEdge(y, start - 1, threshold)
  }

  /** The mirror image of LeftEdge, stopping at bin |y| - 2 at the latest. */
  function RightEdge(y: seq<real>, start: nat, threshold: real): (r: nat)
    requires start + 2 <= |y|
    ensures start <= r <= |y| - 2
    ensures forall k :: start < k <= r ==> y[k] >= threshold
    ensures r == |y| - 2 || y[r + 1] < threshold
    decreases |y| - start
  {
    if y[start + 1] < threshold || start == |y| - 2 then start
    else RightEdge(y, start + 1, threshold)
  }

  predicate Interior(y: seq<real>)
    requires |y| > 0
  {
    0 < ArgMax(y) < |y| - 1
  }

  /** The bins [left, right] around an interior peak that stay at or above
      half of the peak value. */
  function Bracket(y: seq<real>): (b: (nat, nat))
    requires |y| > 0 && Interior(y)
  {
    var m := ArgMax(y);
    (LeftEdge(y, m, y[m] / 2.0), RightEdge(y, m, y[m] / 2.0))
  }

  /** The vertex of the parabola fitted to the bracket, or -2 when the fit
      is not a parabola. */
  function Vertex(x: seq<real>, y: seq<real>, fit: (seq<real>, seq<real>) -> Quadratic): real
    requires |x| == |y| > 0 && Interior(y)
  {
    var (l, r) := Bracket(y);
    var q := fit(x[l..r + 1], y[l..r + 1]);
    if q.a != 0.0 then -0.5 * q.b / q.a else -2.0
  }

  /** `_findPeak`: the frequency of the spectral peak, refined by the
      parabola vertex when the peak is interior and the vertex lies between
      the neighbouring bins. */
  function PeakOf(x: seq<real>, y: seq<real>, fit: (seq<real>, seq<real>) -> Quadratic): real
    requires |x| == |y| > 0
  {
    var m := ArgMax(y);
    if Interior(y) then
      var v := Vertex(x, y, fit);
      if v < x[m - 1] || v > x[m + 1] then x[m] else v
    else x[m]
  }

  /** The bracket of an interior peak lies within [1, |y| - 2], contains
      the peak bin, and all of it is at or above half the peak value. */
  lemma BracketAroundPeak(y: seq<real>)
    requires |y| > 0 && Interior(y) && y[ArgMax(y)] >= 0.0
    ensures var (l, r) := Bracket(y);
      1 <= l <= ArgMax(y) <= r <= |y| - 2 &&
      forall k :: l <= k <= r ==> y[k] >= y[ArgMax(y)] / 2.0
  {
    var m := ArgMax(y);
    var half := y[m] / 2.0;
    var l, r := LeftEdge(y, m, half), RightEdge(y, m, half);
    assert Bracket(y) == (l, r);
    HalfBelow(y[m]);
    forall k | l <= k <= r
      ensures y[k] >= half
    {
      if k != m {
        assert k < m || m < k;
      }
    }
  }

  lemma HalfBelow(v: real)
    requires v >= 0.0
    ensures v >= v / 2.0
  {
  }

  /** The peak of an interior maximum lies between the neighbouring bin
      frequencies (or is the peak bin's own frequency); a maximum in the
      first or last bin yields that bin's frequency. */
  lemma PeakNearMaximum(x: seq<real>, y: seq<real>, fit: (seq<real>, seq<real>) -> Quadratic)
    requires |x| == |y| > 0
    ensures var m := ArgMax(y);
      Interior(y) ==> PeakOf(x, y, fit) == x[m] || x[m - 1] <= PeakOf(x, y, fit) <= x[m + 1]
    ensures !Interior(y) ==> PeakOf(x, y, fit) == x[ArgMax(y)]
  {
  }

  /** The peak found in a band-restricted spectrum always lies in the band,
      so the range test before a BPM is recorded never rejects it. */
  lemma PeakInBand(cfg: Config, x: seq<real>, y: seq<real>, fit: (seq<real>, seq<real>) -> Quadratic)
    requires |x| == |y| > 0
    requires forall i :: 0 <= i < |x| ==> InBand(cfg, x[i])
    ensures InBand(cfg, PeakOf(x, y, fit))
  {
    PeakNearMaximum(x, y, fit);
    var m := ArgMax(y);
    assert InBand(cfg, x[m]);
    if Interior(y) {
      assert InBand(cfg, x[m - 1]) && InBand(cfg, x[m + 1]);
    }
  }

  /** The walk of `_findPeak` to the left of an interior peak, as a loop. */
  method WalkLeft(y: seq<real>, maxBin: nat, threshold: real) returns (leftBin: int)
    requires 1 <= maxBin < |y|
    ensures leftBin == LeftEdge(y, maxBin, threshold)
  {
    leftBin := -1;
    var l := maxBin;
    while l > 0
      invariant 0 <= l <= maxBin
      invariant l >= 1 ==> LeftEdge(y, l, threshold) == LeftEdge(y, maxBin, threshold)
      invariant l == 0 ==> leftBin == LeftEdge(y, maxBin, threshold)
    {
      leftBin := l;
      if y[l - 1] < threshold {
        break;
      }
      l := l - 1;
    }
  }

  /** The walk of `_findPeak` to the right of an interior peak, as a loop. */
  method WalkRight(y: seq<real>, maxBin: nat, threshold: real) returns (rightBin: int)
    requires maxBin + 2 <= |y|
    ensures rightBin == RightEdge(y, maxBin, threshold)
  {
    rightBin := -1;
    var r := maxBin;
    while r < |y| - 1
      invariant maxBin <= r <= |y| - 1
      invariant r <= |y| - 2 ==> RightEdge(y, r, threshold) == RightEdge(y, maxBin, threshold)
      invariant r == |y| - 1 ==> rightBin == RightEdge(y, maxBin, threshold)
    {
      rightBin := r;
      if y[r + 1] < threshold {
        break;
      }
      r := r + 1;
    }
  }

  /** `_findPeak` as the source writes it. */
  method FindPeak(x: seq<real>, y: seq<real>, fit: (seq<real>, seq<real>) -> Quadratic) returns (peak: real)
    requires |x| == |y| > 0
    ensures peak == PeakOf(x, y, fit)
  {
    peak := 0.0;
    var maxBin := ArgMax(y);
    var threshold := MaxOf(y) / 2.0;
    if 0 < maxBin < |y| - 1 {
      var leftBin := WalkLeft(y, maxBin, threshold);
      var rightBin := WalkRight(y, maxBin, threshold);
      if leftBin >= 0 && rightBin >= 0 {
        var q := fit(x[leftBin..rightBin + 1], y[leftBin..rightBin + 1]);
        peak := if q.a != 0.0 then -0.5 * q.b / q.a else -2.0;
        assert (leftBin, rightBin) == Bracket(y) && peak == Vertex(x, y, fit);
        if peak < x[maxBin - 1] || peak > x[maxBin + 1] {
          peak := x[maxBin];
        }
      }
    } else {
      peak := x[maxBin];
    }
  }

  // ---------------------------------------------------------------------
  // The state of one person and one analysis step

  /** The fields of a person: the current and the pending previous face,
      the correction factor, the rolling buffers, the last spectrum, the
      time of the first frame seen and the number of BPM values recorded. */
  datatype PersonState = PersonState(
    face: Roi,
    prevFace: Option<Roi>,
    correction: real,
    times: seq<real>,
    raw: seq<real>,
    corrected: seq<real>,
    filtered: seq<real>,
    bpm: seq<real>,
    avBpm: seq<real>,
    spectrum: seq<real>,
    freqs: seq<real>,
    firstTime: real,
    index: nat)

  /** `Person.__init__`. */
  function NewPerson(face: Roi): PersonState
  {
    PersonState(face, None, 1.0, [], [], [], [], [], [], [], [], 0.0, 0)
  }

  /** `setFace`: the current face becomes the pending previous face. */
  function WithFace(s: PersonState, face: Roi): PersonState
  {
    s.(prevFace := Some(s.face), face := face)
  }

  /** `Person.contains`: the face box with all four edges included. */
  predicate ClosedContains(face: Roi, x: real, y: real)
  {
    face.x <= x <= face.x + face.w && face.y <= y <= face.y + face.h
  }

  /** Points on each edge of a face box are contained in it; points just
      outside are not. */
  lemma ClosedContainsEdges(face: Roi, x: real, y: real)
    requires face.w >= 0.0 && face.h >= 0.0
    requires face.x <= x <= face.x + face.w && face.y <= y <= face.y + face.h
    ensures ClosedContains(face, x, face.y) && ClosedContains(face, x, face.y + face.h)
    ensures ClosedContains(face, face.x, y) && ClosedContains(face, face.x + face.w, y)
    ensures !ClosedContains(face, face.x - 1.0, y) && !ClosedContains(face, face.x + face.w + 1.0, y)
    ensures !ClosedContains(face, x, face.y - 1.0) && !ClosedContains(face, x, face.y + face.h + 1.0)
  {
  }

  /** What a person's state keeps between frames. */
  predicate Valid(cfg: Config, s: PersonState)
  {
    var cap := cfg.maxSamples;
    && |s.times| <= cap
    && |s.raw| == |s.times|
    && |s.corrected| == |s.times|
    && |s.bpm| <= cap
    && |s.avBpm| <= cap
    && Increasing(s.times)
    && AllWithin(s.bpm, cfg.minBpm, cfg.maxBpm)
    && AllWithin(s.avBpm, cfg.minBpm, cfg.maxBpm)
    && |s.freqs| == |s.spectrum|
    && (forall i :: 0 <= i < |s.freqs| ==> InBand(cfg, s.freqs[i]))
  }

  /** What the caller of `analyze` must provide: frames arrive in
      increasing time, and when a frame past the startup time is sampled
      while a previous face is pending, the new region does not sample to 0
      (the source divides by it there).  A frame still in the startup time
      returns before any sampling, so it may have any content. */
  predicate Ready(cfg: Config, s: PersonState, t: real, im: Channel)
  {
    && IsRaster(im)
    && (|s.times| > 0 ==> s.times[|s.times| - 1] < t)
    && (s.prevFace.Some? && Processes(cfg, s, t) ==> Signal(im, s.face) != 0.0)
  }

  /** `array.pop(0)` on a full rolling buffer. */
  function Evict(buf: seq<real>, cap: nat): seq<real>
    requires cap >= 1
  {
    if |buf| >= cap then buf[1..] else buf
  }

  /** What one call of `analyze` did. */
  datatype Outcome =
    | Warmup                            // before the startup time: nothing recorded
    | TooFewSamples                     // sample recorded, too few for the filter
    | EmptyBand                         // no bin in the BPM band: NumPy raises ValueError
    | Rejected(bpm: real)               // estimate outside the plausible range
    | Recorded(bpm: real, averaged: bool)
    | ZeroPeriod                        // averaging period of 0 samples: ZeroDivisionError

  /** The outcomes in which the source raises an exception. */
  predicate Raised(o: Outcome)
  {
    o.EmptyBand? || o.ZeroPeriod?
  }

  /** The first-frame time after this call: a stored time of 0.0 counts as
      unset. */
  function FirstTime(s: PersonState, t: real): real
  {
    if s.firstTime == 0.0 then t else s.firstTime
  }

  /** Does this call get past the startup time? */
  predicate Processes(cfg: Config, s: PersonState, t: real)
  {
    t >= FirstTime(s, t) + cfg.startupTime
  }

  /** The number of most recent BPM values averaged, `int(0.5 + period*fps)`. */
  function AveragePeriod(cfg: Config, fps: real): (p: int)
    requires cfg.avBpmPeriod >= 0.0 && fps >= 0.0
    ensures p >= 0
  {
    NonNegativeProduct(cfg.avBpmPeriod, fps);
    Trunc(0.5 + cfg.avBpmPeriod * fps)
  }

  lemma NonNegativeProduct(a: real, b: real)
    requires a >= 0.0 && b >= 0.0
    ensures a * b >= 0.0
  {
  }

  lemma AppendLater(buf: seq<real>, cap: nat, t: real)
    requires cap >= 1 && Increasing(buf)
    requires |buf| > 0 ==> buf[|buf| - 1] < t
    ensures Increasing(Evict(buf, cap) + [t])
  {
    var e := Evict(buf, cap);
    assert forall i :: 0 <= i < |e| ==> e[i] in buf;
    assert |e| > 0 ==> e[|e| - 1] == buf[|buf| - 1];
  }

  /** The state once the frame's sample is recorded: the buffers have
      given up their oldest element when full, the new time and raw
      sample are appended, a pending previous face has been folded into the
      correction factor, and the corrected sample is appended. */
  function Sampled(cfg: Config, s: PersonState, t: real, sample: real, prev: Option<real>): (s1: PersonState)
    requires ConfigOk(cfg) && (prev.Some? ==> sample != 0.0)
  {
    var cap := cfg.maxSamples;
    var correction := if prev.Some? then Product(s.correction, Ratio(prev.value, sample)) else s.correction;
    s.(times := Evict(s.times, cap) + [t],
       raw := Evict(s.raw, cap) + [sample],
       prevFace := None,
       correction := correction,
       corrected := Evict(s.corrected, cap) + [Product(sample, correction)],
       bpm := Evict(s.bpm, cap),
       avBpm := Evict(s.avBpm, cap))
  }

  function Product(a: real, b: real): real { a * b }

  function Ratio(a: real, b: real): real
    requires b != 0.0
  {
    a / b
  }

  /** The samples a frame gives of the current face and of a pending
      previous face. */
  function FrameSamples(s: PersonState, im: Channel): (r: (real, Option<real>))
    requires IsRaster(im)
    ensures r.0 == Signal(im, s.face)
    ensures r.1.Some? <==> s.prevFace.Some?
    ensures s.prevFace.Some? ==> r.1.value == Signal(im, s.prevFace.value)
  {
    (Signal(im, s.face), if s.prevFace.Some? then Some(Signal(im, s.prevFace.value)) else None)
  }

  /** After a sample is recorded the sample times still increase from the
      first to the last, and there is a corrected value for each. */
  lemma SampledShape(cfg: Config, s: PersonState, t: real, sample: real, prev: Option<real>)
    requires ConfigOk(cfg) && Increasing(s.times) && |s.corrected| == |s.times|
    requires |s.times| > 0 ==> s.times[|s.times| - 1] < t
    requires prev.Some? ==> sample != 0.0
    ensures var s1 := Sampled(cfg, s, t, sample, prev);
      Spread(s1.times) && |s1.corrected| == |s1.times|
  {
    AppendLater(s.times, cfg.maxSamples, t);
  }

  /** Recording an accepted BPM value and, once the BPM history is full and
      the count is a multiple of the averaging period, the mean of the last
      period's values. */
  function Record(cfg: Config, s: PersonState, v: real, fps: real): (PersonState, Outcome)
    requires ConfigOk(cfg) && fps >= 0.0
  {
    var s3 := s.(bpm := s.bpm + [v], index := s.index + 1);
    if fps == 0.0 || |s3.bpm| != cfg.maxSamples then (s3, Recorded(v, false))
    else
      var p := AveragePeriod(cfg, fps);
      if p == 0 then (s3, ZeroPeriod)
      else if s3.index % p != 0 then (s3, Recorded(v, false))
      else (s3.(avBpm := s3.avBpm + [Mean(s3.bpm[PyIndex(-p, |s3.bpm|)..])]), Recorded(v, true))
  }

  /** Filter, spectrum, peak and BPM bookkeeping for a recorded sample. */
  function Estimate(cfg: Config, num: Numerics, s1: PersonState, fps: real): (PersonState, Outcome)
    requires ConfigOk(cfg) && fps >= 0.0
    requires |s1.corrected| >= MinFilterSamples ==> fps != 0.0
  {
    var nyquist := 0.5 * fps;
    var filtered := Filtered(cfg, num, s1.times, s1.corrected, nyquist);
    if |filtered| == 0 then (s1.(filtered := filtered), TooFewSamples)
    else
      var spec := Spectrum(cfg, num.magnitude(filtered), nyquist);
      if spec.None? then (s1.(filtered := filtered), EmptyBand)
      else
        var s2 := s1.(filtered := filtered, freqs := spec.value.0, spectrum := spec.value.1);
        var v := PeakOf(s2.freqs, s2.spectrum, num.polyfit);
        if !(cfg.minBpm <= v <= cfg.maxBpm) then (s2, Rejected(v))
        else Record(cfg, s2, v, fps)
  }

  /** `Person.analyze`, as a function of the state before the call. */
  function Analyzed(cfg: Config, num: Numerics, s: PersonState, t: real, im: Channel): (PersonState, Outcome)
    requires ConfigOk(cfg) && Valid(cfg, s) && Ready(cfg, s, t, im)
  {
    var s0 := s.(firstTime := FirstTime(s, t));
    if t < s0.firstTime + cfg.startupTime then (s0, Warmup)
    else
      var (sample, prev) := FrameSamples(s0, im);
      var s1 := Sampled(cfg, s0, t, sample, prev);
      SampledShape(cfg, s0, t, sample, prev);
      Estimate(cfg, num, s1, Fps(s1.times))
  }

  // ---------------------------------------------------------------------
  // What one analysis step does

  /** The library routines behave as their documentation says where the
      model relies on it: the band-pass filter returns one value per sample. */
  ghost predicate NumericsOk(num: Numerics)
  {
    forall times, data, low, high :: |num.bandpass(times, data, low, high)| == |data|
  }

  /** A rolling buffer of capacity cap after one append: it grew by one
      until full, its newest element is x, and the others are the newest
      elements it held before. */
  predicate Slid(before: seq<real>, after: seq<real>, cap: nat, x: real)
  {
    && |after| == (if |before| < cap then |before| + 1 else cap)
    && 1 <= |after| <= |before| + 1
    && after[|after| - 1] == x
    && after[..|after| - 1] == before[|before| + 1 - |after|..]
  }

  lemma EvictThenAppend(buf: seq<real>, cap: nat, x: real)
    requires 1 <= cap && |buf| <= cap
    ensures Slid(buf, Evict(buf, cap) + [x], cap, x)
  {
    var a := Evict(buf, cap) + [x];
    assert a[..|a| - 1] == Evict(buf, cap);
  }

  /** The last min(p, |s|) elements: the Python slice s[-p:] for p >= 1. */
  lemma LastSlice(s: seq<real>, p: nat)
    requires p >= 1
    ensures var k := if p < |s| then p else |s|;
      s[PyIndex(-(p as int), |s|)..] == s[|s| - k..] && |s[PyIndex(-(p as int), |s|)..]| == k
  {
  }

  lemma EvictWithin(buf: seq<real>, cap: nat, lo: real, hi: real)
    requires cap >= 1 && |buf| <= cap && AllWithin(buf, lo, hi)
    ensures |Evict(buf, cap)| < cap && AllWithin(Evict(buf, cap), lo, hi)
  {
  }

  /** Recording a BPM value: it is appended and counted; the outcome is an
      averaging step exactly when the history is full and the count is a
      multiple of a period of at least one sample, and then the average is
      the mean of the last period's values. */
  lemma RecordEffect(cfg: Config, s: PersonState, v: real, fps: real)
    requires ConfigOk(cfg) && fps >= 0.0
    ensures var (r, o) := Record(cfg, s, v, fps);
      var p := AveragePeriod(cfg, fps);
      && r.bpm == s.bpm + [v] && r.index == s.index + 1
      && (o == Recorded(v, false) || o == Recorded(v, true) || o == ZeroPeriod)
      && (o == ZeroPeriod <==> fps != 0.0 && |r.bpm| == cfg.maxSamples && p == 0)
      && (o == Recorded(v, true) <==> fps != 0.0 && |r.bpm| == cfg.maxSamples && p != 0 && r.index % p == 0)
      && (o == Recorded(v, true) ==>
            var k := if p < |r.bpm| then p else |r.bpm|;
            r.avBpm == s.avBpm + [Mean(r.bpm[|r.bpm| - k..])])
      && (o != Recorded(v, true) ==> r.avBpm == s.avBpm)
      && r.(bpm := s.bpm, index := s.index, avBpm := s.avBpm) == s
  {
    var p := AveragePeriod(cfg, fps);
    if p >= 1 {
      LastSlice(s.bpm + [v], p);
    }
  }

  /** Estimating from a recorded sample leaves the sample buffers, the faces
      and the correction as they are. */
  lemma EstimateFrame(cfg: Config, num: Numerics, s1: PersonState, fps: real)
    requires ConfigOk(cfg) && fps >= 0.0
    requires |s1.corrected| >= MinFilterSamples ==> fps != 0.0
    ensures var r := Estimate(cfg, num, s1, fps).0;
      r.(filtered := s1.filtered, freqs := s1.freqs, spectrum := s1.spectrum,
         bpm := s1.bpm, avBpm := s1.avBpm, index := s1.index) == s1
  {
    var nyquist := 0.5 * fps;
    var filtered := Filtered(cfg, num, s1.times, s1.corrected, nyquist);
    if |filtered| > 0 {
      var spec := Spectrum(cfg, num.magnitude(filtered), nyquist);
      if spec.Some? {
        var s2 := s1.(filtered := filtered, freqs := spec.value.0, spectrum := spec.value.1);
        RecordEffect(cfg, s2, PeakOf(s2.freqs, s2.spectrum, num.polyfit), fps);
      }
    }
  }

  /** The outcomes of the estimation: too few samples leaves the spectrum and
      the BPM history alone; an empty band keeps the old spectrum; otherwise
      the new spectrum is in the band, and its peak is always accepted and
      recorded. */
  lemma EstimateEffect(cfg: Config, num: Numerics, s1: PersonState, fps: real)
    requires ConfigOk(cfg) && fps >= 0.0
    requires |s1.corrected| >= MinFilterSamples ==> fps != 0.0
    ensures var (r, o) := Estimate(cfg, num, s1, fps);
      && !o.Rejected? && !o.Warmup?
      && (|s1.corrected| < MinFilterSamples ==> o == TooFewSamples && r.filtered == [])
      && (NumericsOk(num) && o == TooFewSamples ==> |s1.corrected| < MinFilterSamples)
      && (o == TooFewSamples || o == EmptyBand ==>
            r.freqs == s1.freqs && r.spectrum == s1.spectrum &&
            r.bpm == s1.bpm && r.avBpm == s1.avBpm && r.index == s1.index)
      && (o.Recorded? || o.ZeroPeriod? ==>
            |r.freqs| == |r.spectrum| > 0 && (forall i :: 0 <= i < |r.freqs| ==> InBand(cfg, r.freqs[i])))
      && (o.Recorded? ==> o.bpm == PeakOf(r.freqs, r.spectrum, num.polyfit) && InBand(cfg, o.bpm))
      && (o.Recorded? || o.ZeroPeriod? ==>
            r.bpm == s1.bpm + [r.bpm[|r.bpm| - 1]] && InBand(cfg, r.bpm[|r.bpm| - 1]) &&
            r.index == s1.index + 1)
  {
    var nyquist := 0.5 * fps;
    var filtered := Filtered(cfg, num, s1.times, s1.corrected, nyquist);
    if |filtered| > 0 {
      var spec := Spectrum(cfg, num.magnitude(filtered), nyquist);
      if spec.Some? {
        var s2 := s1.(filtered := filtered, freqs := spec.value.0, spectrum := spec.value.1);
        var v := PeakOf(s2.freqs, s2.spectrum, num.polyfit);
        PeakInBand(cfg, s2.freqs, s2.spectrum, num.polyfit);
        RecordEffect(cfg, s2, v, fps);
      }
    }
  }

  /** The first-frame time is set on the first call; before the startup
      time has passed nothing else changes. */
  lemma AnalyzedWarmup(cfg: Config, num: Numerics, s: PersonState, t: real, im: Channel)
    requires ConfigOk(cfg) && Valid(cfg, s) && Ready(cfg, s, t, im)
    ensures var (r, o) := Analyzed(cfg, num, s, t, im);
      && r.firstTime == (if s.firstTime == 0.0 then t else s.firstTime)
      && (o == Warmup <==> t < r.firstTime + cfg.startupTime)
      && (o == Warmup ==> r.(firstTime := s.firstTime) == s)
  {
    var s0 := s.(firstTime := FirstTime(s, t));
    if Processes(cfg, s, t) {
      var (sample, prev) := FrameSamples(s0, im);
      var s1 := Sampled(cfg, s0, t, sample, prev);
      SampledFields(cfg, s0, t, sample, prev);
      SampledShape(cfg, s0, t, sample, prev);
      EstimateFrame(cfg, num, s1, Fps(s1.times));
      EstimateEffect(cfg, num, s1, Fps(s1.times));
    }
  }

  /** Switching regions keeps the corrected signal continuous: with the
      factor multiplied by prev / raw, the new region's raw sample is
      corrected to the previous region's sample under the old factor. */
  lemma CorrectionCancels(c: real, prev: real, raw: real, factor: real, x: real)
    requires raw != 0.0 && factor == c * (prev / raw) && x == Product(raw, factor)
    ensures x == c * prev
  {
    assert raw * (prev / raw) == prev;
    assert raw * (c * (prev / raw)) == c * (raw * (prev / raw));
  }

  /** Recording a sample: the time, raw and corrected buffers slide by one
      sample. */
  lemma SampledBuffers(cfg: Config, s: PersonState, t: real, sample: real, prev: Option<real>)
    requires ConfigOk(cfg) && Valid(cfg, s)
    requires |s.times| > 0 ==> s.times[|s.times| - 1] < t
    requires prev.Some? ==> sample != 0.0
    ensures var s1 := Sampled(cfg, s, t, sample, prev);
      var cap := cfg.maxSamples;
      && Slid(s.times, s1.times, cap, t)
      && Slid(s.raw, s1.raw, cap, sample)
      && Slid(s.corrected, s1.corrected, cap, Product(sample, s1.correction))
  {
    var cap := cfg.maxSamples;
    var s1 := Sampled(cfg, s, t, sample, prev);
    EvictThenAppend(s.times, cap, t);
    EvictThenAppend(s.raw, cap, sample);
    var x := Product(sample, s1.correction);
    assert s1.corrected == Evict(s.corrected, cap) + [x];
    EvictThenAppend(s.corrected, cap, x);
  }

  /** Recording a sample clears the pending previous face, folds its sample
      into the correction factor, drops the oldest BPM values of full
      histories and leaves the face, the count and the spectrum alone. */
  lemma SampledFields(cfg: Config, s: PersonState, t: real, sample: real, prev: Option<real>)
    requires ConfigOk(cfg) && Valid(cfg, s)
    requires |s.times| > 0 ==> s.times[|s.times| - 1] < t
    requires prev.Some? ==> sample != 0.0
    ensures var s1 := Sampled(cfg, s, t, sample, prev);
      var cap := cfg.maxSamples;
      && s1.prevFace == None
      && (prev.None? ==> s1.correction == s.correction)
      && (prev.Some? ==> s1.correction == s.correction * (prev.value / sample))
      && s1.bpm == Evict(s.bpm, cap) && s1.avBpm == Evict(s.avBpm, cap)
      && s1.face == s.face && s1.index == s.index && s1.firstTime == s.firstTime
      && s1.freqs == s.freqs && s1.spectrum == s.spectrum
  {
  }

  /** The corrected signal continues across a change of region: the first
      corrected sample of the new region equals the previous region's
      sample in the same frame under the old factor. */
  lemma SampledContinues(cfg: Config, s: PersonState, t: real, sample: real, prev: Option<real>)
    requires ConfigOk(cfg) && Valid(cfg, s)
    requires |s.times| > 0 ==> s.times[|s.times| - 1] < t
    requires prev.Some? && sample != 0.0
    ensures var s1 := Sampled(cfg, s, t, sample, prev);
      s1.corrected[|s1.corrected| - 1] == s.correction * prev.value
  {
    var s1 := Sampled(cfg, s, t, sample, prev);
    var x := Product(sample, s1.correction);
    assert s1.corrected[|s1.corrected| - 1] == x;
    CorrectionCancels(s.correction, prev.value, sample, s1.correction, x);
  }

  /** A step that gets a spectrum ends by recording its peak. */
  lemma EstimateRecords(cfg: Config, num: Numerics, s1: PersonState, fps: real)
    requires ConfigOk(cfg) && fps >= 0.0
    requires |s1.corrected| >= MinFilterSamples ==> fps != 0.0
    ensures var (r, o) := Estimate(cfg, num, s1, fps);
      o.Recorded? || o.ZeroPeriod? ==>
        (r, o) == Record(cfg, s1.(filtered := r.filtered, freqs := r.freqs, spectrum := r.spectrum),
                         PeakOf(r.freqs, r.spectrum, num.polyfit), fps)
  {
    var nyquist := 0.5 * fps;
    var filtered := Filtered(cfg, num, s1.times, s1.corrected, nyquist);
    if |filtered| > 0 {
      var spec := Spectrum(cfg, num.magnitude(filtered), nyquist);
      if spec.Some? {
        var s2 := s1.(filtered := filtered, freqs := spec.value.0, spectrum := spec.value.1);
        var v := PeakOf(s2.freqs, s2.spectrum, num.polyfit);
        PeakInBand(cfg, s2.freqs, s2.spectrum, num.polyfit);
        assert Estimate(cfg, num, s1, fps) == Record(cfg, s2, v, fps);
        RecordEffect(cfg, s2, v, fps);
      }
    }
  }

  /** Past the startup time a step records the frame's samples and then
      estimates from the recorded buffers. */
  lemma AnalyzedSteps(cfg: Config, num: Numerics, s: PersonState, t: real, im: Channel)
    requires ConfigOk(cfg) && Valid(cfg, s) && Ready(cfg, s, t, im) && Processes(cfg, s, t)
    ensures var s0 := s.(firstTime := FirstTime(s, t));
      var (sample, prev) := FrameSamples(s0, im);
      var s1 := Sampled(cfg, s0, t, sample, prev);
      && Spread(s1.times) && |s1.corrected| == |s1.times|
      && Analyzed(cfg, num, s, t, im) == Estimate(cfg, num, s1, Fps(s1.times))
  {
    var s0 := s.(firstTime := FirstTime(s, t));
    var (sample, prev) := FrameSamples(s0, im);
    SampledShape(cfg, s0, t, sample, prev);
  }

  /** A recorded sample leaves a valid state with room for one more BPM
      value and one more average. */
  lemma SampledValid(cfg: Config, s: PersonState, t: real, sample: real, prev: Option<real>)
    requires ConfigOk(cfg) && Valid(cfg, s)
    requires |s.times| > 0 ==> s.times[|s.times| - 1] < t
    requires prev.Some? ==> sample != 0.0
    ensures var s1 := Sampled(cfg, s, t, sample, prev);
      Valid(cfg, s1) && |s1.bpm| < cfg.maxSamples && |s1.avBpm| < cfg.maxSamples
  {
    var cap := cfg.maxSamples;
    AppendLater(s.times, cap, t);
    EvictWithin(s.bpm, cap, cfg.minBpm, cfg.maxBpm);
    EvictWithin(s.avBpm, cap, cfg.minBpm, cfg.maxBpm);
  }

  /** Recording an in-range value keeps the state valid: the average of
      in-range values is in range. */
  lemma RecordValid(cfg: Config, s: PersonState, v: real, fps: real)
    requires ConfigOk(cfg) && fps >= 0.0 && InBand(cfg, v)
    requires Valid(cfg, s) && |s.bpm| < cfg.maxSamples && |s.avBpm| < cfg.maxSamples
    ensures Valid(cfg, Record(cfg, s, v, fps).0)
  {
    RecordEffect(cfg, s, v, fps);
    var (r, o) := Record(cfg, s, v, fps);
    assert AllWithin(r.bpm, cfg.minBpm, cfg.maxBpm);
    if o == Recorded(v, true) {
      var p := AveragePeriod(cfg, fps);
      var k := if p < |r.bpm| then p else |r.bpm|;
      MeanWithin(r.bpm[|r.bpm| - k..], cfg.minBpm, cfg.maxBpm);
    }
  }

  /** Estimation keeps the state valid. */
  lemma EstimateValid(cfg: Config, num: Numerics, s1: PersonState, fps: real)
    requires ConfigOk(cfg) && fps >= 0.0
    requires |s1.corrected| >= MinFilterSamples ==> fps != 0.0
    requires Valid(cfg, s1) && |s1.bpm| < cfg.maxSamples && |s1.avBpm| < cfg.maxSamples
    ensures Valid(cfg, Estimate(cfg, num, s1, fps).0)
  {
    var nyquist := 0.5 * fps;
    var filtered := Filtered(cfg, num, s1.times, s1.corrected, nyquist);
    if |filtered| > 0 {
      var spec := Spectrum(cfg, num.magnitude(filtered), nyquist);
      if spec.Some? {
        var s2 := s1.(filtered := filtered, freqs := spec.value.0, spectrum := spec.value.1);
        var v := PeakOf(s2.freqs, s2.spectrum, num.polyfit);
        PeakInBand(cfg, s2.freqs, s2.spectrum, num.polyfit);
        assert Estimate(cfg, num, s1, fps) == Record(cfg, s2, v, fps);
        RecordValid(cfg, s2, v, fps);
      }
    }
  }

  /** `analyze` keeps a person's state valid. */
  lemma AnalyzedValid(cfg: Config, num: Numerics, s: PersonState, t: real, im: Channel)
    requires ConfigOk(cfg) && Valid(cfg, s) && Ready(cfg, s, t, im)
    ensures Valid(cfg, Analyzed(cfg, num, s, t, im).0)
  {
    var s0 := s.(firstTime := FirstTime(s, t));
    if Processes(cfg, s, t) {
      var (sample, prev) := FrameSamples(s0, im);
      var s1 := Sampled(cfg, s0, t, sample, prev);
      SampledValid(cfg, s0, t, sample, prev);
      SampledShape(cfg, s0, t, sample, prev);
      EstimateValid(cfg, num, s1, Fps(s1.times));
    }
  }

  // ---------------------------------------------------------------------
  // The person object

  /** `Person`: the per-person state, updated in place frame by frame. */
  class Person {
    var face: Roi
    var prevFace: Option<Roi>
    var correction: real
    var times: seq<real>
    var raw: seq<real>
    var corrected: seq<real>
    var filtered: seq<real>
    var bpm: seq<real>
    var avBpm: seq<real>
    var spectrum: seq<real>
    var freqs: seq<real>
    var firstTime: real
    var index: nat

    /** The fields as one value. */
    function State(): PersonState
      reads this
    {
      PersonState(face, prevFace, correction, times, raw, corrected, filtered,
                  bpm, avBpm, spectrum, freqs, firstTime, index)
    }

    constructor(face: Roi)
      ensures State() == NewPerson(face)
    {
      this.face := face;
      prevFace := None;
      correction := 1.0;
      times, raw, corrected, filtered := [], [], [], [];
      bpm, avBpm, spectrum, freqs := [], [], [], [];
      firstTime := 0.0;
      index := 0;
    }

    /** `setFace`. */
    method SetFace(face: Roi)
      modifies this
      ensures State() == WithFace(old(State()), face)
    {
      prevFace := Some(this.face);
      this.face := face;
    }

    /** `contains`. */
    method Contains(x: real, y: real) returns (b: bool)
      ensures b == ClosedContains(face, x, y)
    {
      b := face.x <= x <= face.x + face.w && face.y <= y <= face.y + face.h;
    }

    /** `analyze`: one green-channel frame taken at time t. */
    method Analyze(cfg: Config, num: Numerics, t: real, im: Channel) returns (outcome: Outcome)
      requires ConfigOk(cfg) && Valid(cfg, State()) && Ready(cfg, State(), t, im)
      modifies this
      ensures (State(), outcome) == Analyzed(cfg, num, old(State()), t, im)
      ensures Valid(cfg, State())
    {
      ghost var s := State();
      AnalyzedValid(cfg, num, s, t, im);
      if firstTime == 0.0 {
        firstTime := t;
      }
      if t < firstTime + cfg.startupTime {
        return Warmup;
      }
      AnalyzedSteps(cfg, num, s, t, im);
      var sample := Signal(im, face);
      var prev := if prevFace.Some? then Some(Signal(im, prevFace.value)) else None;
      RecordSample(cfg, t, sample, prev);
      outcome := Estimation(cfg, num);
    }

    /** The part of `analyze` that records the frame's samples: the sample
        of the face and, when a previous face is pending, its sample. */
    method RecordSample(cfg: Config, t: real, sample: real, prev: Option<real>)
      requires ConfigOk(cfg)
      requires prev.Some? <==> prevFace.Some?
      requires prev.Some? ==> sample != 0.0
      modifies this
      ensures State() == Sampled(cfg, old(State()), t, sample, prev)
    {
      var cap := cfg.maxSamples;
      times := Evict(times, cap) + [t];
      raw := Evict(raw, cap) + [sample];
      if prev.Some? {
        correction := Product(correction, Ratio(prev.value, sample));
        prevFace := None;
      }
      corrected := Evict(corrected, cap) + [Product(sample, correction)];
      bpm := Evict(bpm, cap);
      avBpm := Evict(avBpm, cap);
    }

    /** The part of `analyze` after the sample is recorded. */
    method Estimation(cfg: Config, num: Numerics) returns (outcome: Outcome)
      requires ConfigOk(cfg) && Spread(times) && |corrected| == |times|
      modifies this
      ensures (State(), outcome) == Estimate(cfg, num, old(State()), Fps(old(times)))
    {
      ghost var s1 := State();
      var fps := Fps(times);
      var nyquist := 0.5 * fps;
      filtered := Filtered(cfg, num, times, corrected, nyquist);
      if |filtered| == 0 {
        return TooFewSamples;
      }
      var spec := Spectrum(cfg, num.magnitude(filtered), nyquist);
      if spec.None? {
        return EmptyBand;
      }
      freqs, spectrum := spec.value.0, spec.value.1;
      var v := FindPeak(freqs, spectrum, num.polyfit);
      if !(cfg.minBpm <= v <= cfg.maxBpm) {
        return Rejected(v);
      }
      assert Estimate(cfg, num, s1, fps) == Record(cfg, State(), v, fps);
      outcome := Recording(cfg, v, fps);
    }

    /** The BPM bookkeeping at the end of `analyze`. */
    method Recording(cfg: Config, v: real, fps: real) returns (outcome: Outcome)
      requires ConfigOk(cfg) && fps >= 0.0
      modifies this
      ensures (State(), outcome) == Record(cfg, old(State()), v, fps)
    {
      bpm := bpm + [v];
      index := index + 1;
      outcome := Recorded(v, false);
      if fps != 0.0 {
        var p := AveragePeriod(cfg, fps);
        if |bpm| == cfg.maxSamples {
          if p == 0 {
            return ZeroPeriod;
          }
          if index % p == 0 {
            avBpm := avBpm + [Mean(bpm[PyIndex(-p, |bpm|)..])];
            outcome := Recorded(v, true);
          }
        }
      }
    }
  }
}
