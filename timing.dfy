/** Tempo, bar and clamp arithmetic shared by the deck engine and the store.
    Every function here is the exact expression the source writes, over
    unbounded reals (JavaScript doubles are not modelled). */
module Timing {

  /** Beats in one bar: the source hard-codes 4/4 time. */
  const BeatsPerBar: real := 4.0

  /** The tempo a freshly loaded deck is synced to. */
  const DefaultBPM: real := 128.0

  /** `Math.max(a, b)` and `Math.min(a, b)`. */
  function Max(a: real, b: real): real { if a >= b then a else b }
  function Min(a: real, b: real): real { if a <= b then a else b }

  /** `Math.max(lo, Math.min(x, hi))`, the clamp the engine writes for
      positions and scrub rates. */
  function Clamp(x: real, lo: real, hi: real): (r: real)
    ensures lo <= hi ==> lo <= r <= hi
    ensures lo <= x <= hi ==> r == x
    ensures x < lo ==> r == lo
    ensures lo <= hi < x ==> r == hi
  {
    Max(lo, Min(x, hi))
  }

  /** `Math.round(x)`: the nearest integer, halves rounded up. */
  function JsRound(x: real): (r: real)
    ensures r == r.Floor as real
    ensures r - 0.5 <= x < r + 0.5
  {
    (x + 0.5).Floor as real
  }

  /** JavaScript's integer quotient: `a / n` truncated toward zero. */
  function JsQuot(a: int, n: int): int
    requires n > 0
  {
    if a >= 0 then a / n else -((-a) / n)
  }

  /** JavaScript's `%` on integers: the remainder takes the sign of the
      dividend (truncating division), unlike Dafny's Euclidean `%`, and
      `a` is the truncated quotient times `n` plus the remainder. */
  function JsRemInt(a: int, n: int): (r: int)
    requires n > 0
    ensures -n < r < n
    ensures a >= 0 ==> 0 <= r
    ensures a <= 0 ==> r <= 0
    ensures a == JsQuot(a, n) * n + r
  {
    if a >= 0 then
      a % n
    else
      assert -((-a) / n) * n == -(((-a) / n) * n);
      -((-a) % n)
  }

  /** Truncation toward zero of a real. */
  function Trunc(y: real): int
  {
    if y >= 0.0 then y.Floor else -((-y).Floor)
  }

  /** JavaScript's `%` on numbers: `x - n * trunc(x / n)`. The remainder
      takes the sign of the dividend and differs from it by a whole number
      of `n`s. */
  function JsRemReal(x: real, n: real): (r: real)
    requires n > 0.0
    ensures x >= 0.0 ==> 0.0 <= r < n
    ensures x <= 0.0 ==> -n < r <= 0.0
    ensures 0.0 <= x < n ==> r == x
    ensures ((x - r) / n).Floor as real == (x - r) / n
  {
    var q := Trunc(x / n);
    RemRealNonNegative(x, n);
    RemRealNonPositive(x, n);
    WholeMultiple(q, n);
    x - q as real * n
  }

  /** For a non-negative `x` the truncated remainder lies in [0, n), and is
      `x` itself below `n`. */
  lemma RemRealNonNegative(x: real, n: real)
    requires n > 0.0
    ensures var r := x - Trunc(x / n) as real * n;
      x >= 0.0 ==> 0.0 <= r < n && (x < n ==> r == x)
  {
    if x >= 0.0 {
      var q := Trunc(x / n);
      FloorScaled(x, n);
      assert x < (q as real + 1.0) * n == q as real * n + n;
      if x < n {
        DivFractionFloor(x, n);
      }
    }
  }

  /** For a non-positive `x` the truncated remainder lies in (-n, 0]. */
  lemma RemRealNonPositive(x: real, n: real)
    requires n > 0.0
    ensures var r := x - Trunc(x / n) as real * n;
      x <= 0.0 ==> -n < r <= 0.0
  {
    if x < 0.0 {
      var q := Trunc(x / n);
      assert -(x / n) == (-x) / n;
      FloorScaled(-x, n);
      assert -x < (-q as real + 1.0) * n == -q as real * n + n;
    }
  }

  /** A whole number of `n`s divided by `n` is a whole number. */
  lemma WholeMultiple(q: int, n: real)
    requires n > 0.0
    ensures ((q as real * n) / n).Floor as real == (q as real * n) / n
  {
    DivCancel(q, n);
  }

  /** `floor(x / n)` whole multiples of `n` fit into `x`, and the next one does not. */
  lemma FloorScaled(x: real, n: real)
    requires n > 0.0
    ensures ((x / n).Floor as real) * n <= x
    ensures x < ((x / n).Floor as real + 1.0) * n
  {
    var y := x / n;
    var f := y.Floor as real;
    ScaledLower(f, y, n, x);
    ScaledUpper(f, y, n, x);
  }

  lemma ScaledLower(f: real, y: real, n: real, t: real)
    requires f <= y
    requires n > 0.0
    requires t == y * n
    ensures f * n <= t
  {
    MulMono(f, y, n);
  }

  lemma ScaledUpper(f: real, y: real, n: real, t: real)
    requires y < f + 1.0
    requires n > 0.0
    requires t == y * n
    ensures t < (f + 1.0) * n
  {
    MulStrict(y, f + 1.0, n);
  }

  lemma MulMono(a: real, b: real, c: real)
    requires a <= b && c >= 0.0
    ensures a * c <= b * c
  {
  }

  lemma MulStrict(a: real, b: real, c: real)
    requires a < b && c > 0.0
    ensures a * c < b * c
  {
  }

  /** A whole multiple of `n`, divided by `n`, is that whole number. */
  lemma DivCancel(k: int, n: real)
    requires n != 0.0
    ensures (k as real * n) / n == k as real
  {
  }

  /** `(k + 1) * n` is one `n` past `k * n`. */
  lemma NextMultiple(k: int, n: real)
    ensures (k + 1) as real * n == k as real * n + n
  {
  }

  /** A non-negative `x` below `n` is less than one `n`. */
  lemma DivFractionFloor(x: real, n: real)
    requires n > 0.0
    requires 0.0 <= x < n
    ensures (x / n).Floor == 0
  {
    var y := x / n;
    assert y * n == x;
    if y >= 1.0 {
      MulMono(1.0, y, n);
    }
    if y < 0.0 {
      MulStrict(y, 0.0, n);
    }
  }

  /** Seconds per beat: `60 / bpm`. */
  function BeatDuration(bpm: real): (d: real)
    requires bpm != 0.0
    ensures bpm > 0.0 ==> d > 0.0
  {
    60.0 / bpm
  }

  /** Seconds per bar: `beatDuration * beatsPerBar`. */
  function BarDuration(bpm: real): (d: real)
    requires bpm != 0.0
    ensures bpm > 0.0 ==> d > 0.0
  {
    BeatDuration(bpm) * BeatsPerBar
  }

  /** Index of the bar that contains transport time `t`:
      `Math.floor(t / barDuration)`. */
  function BarIndex(t: real, bpm: real): int
    requires bpm != 0.0
  {
    (t / BarDuration(bpm)).Floor
  }

  /** True when `x` is a whole number of bars from the transport origin. */
  predicate IsBarBoundary(x: real, bpm: real)
    requires bpm != 0.0
  {
    (x / BarDuration(bpm)).Floor as real * BarDuration(bpm) == x
  }

  /** The next bar boundary after `t`: `(Math.floor(t / barDuration) + 1) * barDuration`.
      It lies strictly after `t`, at most one bar later, and on the bar grid. */
  function NextBarBoundary(t: real, bpm: real): (r: real)
    requires bpm != 0.0
    ensures bpm > 0.0 ==> t < r <= t + BarDuration(bpm)
    ensures IsBarBoundary(r, bpm)
  {
    var d := BarDuration(bpm);
    var k := BarIndex(t, bpm) + 1;
    BoundaryFacts(t, d, k);
    k as real * d
  }

  lemma BoundaryFacts(t: real, d: real, k: int)
    requires d != 0.0
    requires k == (t / d).Floor + 1
    ensures (k as real * d / d).Floor as real * d == k as real * d
    ensures d > 0.0 ==> t < k as real * d <= t + d
  {
    DivCancel(k, d);
    if d > 0.0 {
      FloorScaled(t, d);
      assert (k - 1) as real * d <= t;
      assert t < k as real * d;
      NextMultiple(k - 1, d);
    }
  }

  /** The time a bar-aligned start is scheduled for:
      `Math.max(nextBarTime, now + lookahead)`. It is never earlier than the
      lookahead allows, never earlier than the next bar boundary, and is one
      of the two. */
  function ScheduleTime(now: real, bpm: real, lookahead: real): (r: real)
    requires bpm != 0.0
    ensures r >= now + lookahead
    ensures r >= NextBarBoundary(now, bpm)
    ensures r == now + lookahead || r == NextBarBoundary(now, bpm)
  {
    Max(NextBarBoundary(now, bpm), now + lookahead)
  }

  /** The rate that plays a track recorded at `originalBPM` at `targetBPM`.
      The helper that computes it lives outside the modelled core; the model
      assumes it is the plain tempo ratio. */
  function CalculatePlaybackRate(originalBPM: real, targetBPM: real): real
    requires originalBPM > 0.0
  {
    targetBPM / originalBPM
  }

  /** The rate scales the track's tempo to the target, is positive for a
      positive target, and is 1 exactly when the two tempos agree. */
  lemma PlaybackRateMeaning(originalBPM: real, targetBPM: real)
    requires originalBPM > 0.0
    ensures CalculatePlaybackRate(originalBPM, targetBPM) * originalBPM == targetBPM
    ensures targetBPM > 0.0 ==> CalculatePlaybackRate(originalBPM, targetBPM) > 0.0
    ensures CalculatePlaybackRate(originalBPM, targetBPM) == 1.0 <==> targetBPM == originalBPM
  {
    var rate := targetBPM / originalBPM;
    assert rate * originalBPM == targetBPM;
    assert originalBPM / originalBPM == 1.0;
  }

  /** A bar-aligned start requested exactly on a bar boundary does not land
      on that boundary: with a lookahead of at most one bar it waits exactly
      one whole bar. */
  lemma OnBoundaryWaitsWholeBar(t: real, bpm: real, lookahead: real)
    requires bpm > 0.0
    requires IsBarBoundary(t, bpm)
    requires 0.0 <= lookahead <= BarDuration(bpm)
    ensures ScheduleTime(t, bpm, lookahead) == t + BarDuration(bpm)
  {
    var d := BarDuration(bpm);
    var k := (t / d).Floor;
    assert t == k as real * d;
    DivCancel(k, d);
    assert BarIndex(t, bpm) == k;
    NextMultiple(k, d);
    assert NextBarBoundary(t, bpm) == t + d;
  }

  /** Rounding a whole tempo keeps it. */
  lemma JsRoundWhole(n: int)
    ensures JsRound(n as real) == n as real
  {
  }
}
