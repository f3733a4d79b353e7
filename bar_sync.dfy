/** How the store finds the next bar when it starts a deck "on the next bar":
    it reads the transport's `bars:beats:sixteenths` position, counts the
    beats left in the bar, and schedules the start that far ahead. */
module BarSync {
  import opened Timing

  /** `Tone.Transport.position` split at the colons: whole bars, whole beats
      into the bar, and sixteenths (possibly fractional) into the beat. */
  datatype TransportPosition = TransportPosition(bars: int, beats: int, sixteenths: real)

  /** A position as the transport reports it in 4/4 time. */
  predicate WellFormed(p: TransportPosition)
  {
    p.bars >= 0 && 0 <= p.beats < 4 && 0.0 <= p.sixteenths < 4.0
  }

  /** The beats elapsed since the transport origin at position `p`. */
  function TotalBeats(p: TransportPosition): real
  {
    (4 * p.bars + p.beats) as real + p.sixteenths / 4.0
  }

  /** The position the transport reports `t` seconds after its origin, with
      the tempo held at `bpm` since then. */
  function PositionAt(t: real, bpm: real): (p: TransportPosition)
    requires t >= 0.0 && bpm > 0.0
    ensures WellFormed(p)
    ensures TotalBeats(p) * BeatDuration(bpm) == t
  {
    var d := BeatDuration(bpm);
    var total := t / d;
    NonNegativeQuotient(t, d);
    var whole := total.Floor;
    var p := TransportPosition(whole / 4, whole % 4, (total - whole as real) * 4.0);
    assert TotalBeats(p) == total;
    p
  }

  /** A non-negative number divided by a positive one is not negative, and
      multiplying back gives the number. */
  lemma NonNegativeQuotient(t: real, d: real)
    requires t >= 0.0 && d > 0.0
    ensures t / d >= 0.0
    ensures (t / d) * d == t
  {
  }

  /** The store's `currentBeat`: `beats + sixteenths / 4`. */
  function CurrentBeat(p: TransportPosition): real
  {
    p.beats as real + p.sixteenths / 4.0
  }

  /** The store's `beatsUntilNextBar`: `4 - (currentBeat % 4)`. For
      non-negative position fields it lies in (0, 4]; it is 4 exactly on a
      bar line. */
  function BeatsUntilNextBar(p: TransportPosition): (b: real)
    ensures p.beats >= 0 && p.sixteenths >= 0.0 ==> 0.0 < b <= 4.0
    ensures WellFormed(p) ==> b == 4.0 - CurrentBeat(p)
  {
    4.0 - JsRemReal(CurrentBeat(p), 4.0)
  }

  /** Seconds taken by `beats` beats at tempo `bpm`. */
  function BeatsToSeconds(beats: real, bpm: real): real
    requires bpm != 0.0
  {
    beats * BeatDuration(bpm)
  }

  /** The length in beats of Tone's note value `"<n>n"` in 4/4 time: a
      `1/n` note, so `"4n"` is one beat and `"1n"` a whole bar. */
  function NoteValueBeats(n: real): real
    requires n > 0.0
  {
    4.0 / n
  }

  /** When the store's next-bar start fires, as written: the beat count is
      formatted as the note value `"+<beatsUntilNextBar>n"`, so the wait is
      `4 / beatsUntilNextBar` beats. */
  function AsWrittenStartTime(t: real, bpm: real): real
    requires t >= 0.0 && bpm > 0.0
  {
    t + BeatsToSeconds(NoteValueBeats(BeatsUntilNextBar(PositionAt(t, bpm))), bpm)
  }

  /** When the store's next-bar start fires once the wait is the beats left
      in the bar: exactly the next bar boundary of the transport grid. */
  function NextBarStartTime(t: real, bpm: real): (at: real)
    requires t >= 0.0 && bpm > 0.0
    ensures at == NextBarBoundary(t, bpm)
  {
    NextBarDelayLandsOnBar(t, bpm);
    t + BeatsToSeconds(BeatsUntilNextBar(PositionAt(t, bpm)), bpm)
  }

  /** Waiting the beats left in the bar from the position the transport
      reports at `t` lands exactly on the next bar boundary. */
  lemma {:induction false} NextBarDelayLandsOnBar(t: real, bpm: real)
    requires t >= 0.0 && bpm > 0.0
    ensures t + BeatsToSeconds(BeatsUntilNextBar(PositionAt(t, bpm)), bpm) == NextBarBoundary(t, bpm)
  {
    var p := PositionAt(t, bpm);
    var d := BeatDuration(bpm);
    var bars := p.bars;
    var c := CurrentBeat(p);
    assert TotalBeats(p) == 4.0 * bars as real + c;
    assert t == (4.0 * bars as real + c) * d;
    assert 0.0 <= c < 4.0;
    var bar := BarDuration(bpm);
    assert bar == d * 4.0;
    BarOfBeats(t, d, bars as real, c);
    assert t / bar == bars as real + c / 4.0;
    assert BarIndex(t, bpm) == bars;
    calc {
      t + BeatsToSeconds(BeatsUntilNextBar(p), bpm);
      (4.0 * bars as real + c) * d + (4.0 - c) * d;
      { Distribute(4.0 * bars as real + c, 4.0 - c, d); }
      (4.0 * bars as real + 4.0) * d;
      (bars + 1) as real * bar;
      NextBarBoundary(t, bpm);
    }
  }

  /** `x * d + y * d == (x + y) * d`. */
  lemma Distribute(x: real, y: real, d: real)
    ensures x * d + y * d == (x + y) * d
  {
  }

  /** A time `(4k + c)` beats from the origin is `k + c/4` bars from it. */
  lemma BarOfBeats(t: real, d: real, k: real, c: real)
    requires d > 0.0
    requires t == (4.0 * k + c) * d
    ensures t / (d * 4.0) == k + c / 4.0
  {
    assert (k + c / 4.0) * (d * 4.0) == (4.0 * k + c) * d;
  }

  /** The delay as written lands on the next bar exactly when two beats are
      left in the bar: `"+<b>n"` lasts `4/b` beats, and `4/b == b` only for
      `b == 2`. */
  lemma {:induction false} AsWrittenLandsOnBarIff(t: real, bpm: real)
    requires t >= 0.0 && bpm > 0.0
    ensures AsWrittenStartTime(t, bpm) == NextBarBoundary(t, bpm)
      <==> BeatsUntilNextBar(PositionAt(t, bpm)) == 2.0
  {
    var p := PositionAt(t, bpm);
    var b := BeatsUntilNextBar(p);
    var d := BeatDuration(bpm);
    NextBarDelayLandsOnBar(t, bpm);
    assert NextBarBoundary(t, bpm) == t + b * d;
    ScaledEqual(4.0 / b, b, d);
    QuarterSquare(b);
  }

  /** Two amounts scaled by the same positive factor agree exactly when the
      amounts do. */
  lemma ScaledEqual(x: real, y: real, d: real)
    requires d > 0.0
    ensures x * d == y * d <==> x == y
  {
    if x * d == y * d {
      assert (x - y) * d == 0.0;
    }
  }

  /** For a positive `b`, `4 / b == b` exactly when `b == 2`. */
  lemma QuarterSquare(b: real)
    requires b > 0.0
    ensures 4.0 / b == b <==> b == 2.0
  {
    if 4.0 / b == b {
      assert b * b == 4.0;
      assert (b - 2.0) * (b + 2.0) == 0.0;
    }
  }

  /** At the transport origin the position reads `0:0:0` whatever the tempo. */
  lemma PositionAtOrigin(bpm: real)
    requires bpm > 0.0
    ensures PositionAt(0.0, bpm) == TransportPosition(0, 0, 0.0)
  {
    assert 0.0 / BeatDuration(bpm) == 0.0;
  }

  /** At the transport origin at 120 BPM the store asks for `"+4n"`: one
      beat, half a second, while the next bar is two seconds away. */
  lemma AsWrittenMissesBar()
    ensures BeatsUntilNextBar(PositionAt(0.0, 120.0)) == 4.0
    ensures AsWrittenStartTime(0.0, 120.0) == 0.5
    ensures NextBarBoundary(0.0, 120.0) == 2.0
  {
    PositionAtOrigin(120.0);
    var origin := TransportPosition(0, 0, 0.0);
    assert NoteValueBeats(BeatsUntilNextBar(origin)) == 1.0 by {
      assert BeatsUntilNextBar(origin) == 4.0;
    }
    assert BeatsToSeconds(1.0, 120.0) == 0.5;
    assert NextBarBoundary(0.0, 120.0) == 2.0 by {
      assert BarDuration(120.0) == 2.0;
      assert BarIndex(0.0, 120.0) == 0;
    }
  }
}
