/** The control values a deck hands to its signal chain. The engine does no
    signal processing itself: each setter maps a 0..100 UI value to the
    parameter of one node and ramps the node to it. */
module SignalParams {

  /** The EQ gain in dB for a 0..100 knob: `((value - 50) / 50) * 15`. */
  function EqDb(value: real): (db: real)
    ensures 0.0 <= value <= 100.0 ==> -15.0 <= db <= 15.0
    ensures db == 0.0 <==> value == 50.0
    ensures db < 0.0 <==> value < 50.0
  {
    ((value - 50.0) / 50.0) * 15.0
  }

  /** The knob position that asks for `db` decibels (the inverse of EqDb). */
  function EqKnobFor(db: real): real
  {
    50.0 + db * 50.0 / 15.0
  }

  /** EqKnobFor undoes EqDb, so distinct knob positions give distinct gains. */
  lemma EqDbRoundTrip(value: real)
    ensures EqKnobFor(EqDb(value)) == value
  {
  }

  /** Turning an EQ knob up never lowers its gain. */
  lemma EqDbMonotone(a: real, b: real)
    requires a <= b
    ensures EqDb(a) <= EqDb(b)
  {
  }

  /** The low-pass cutoff in Hz for a 0..100 filter knob: at or below the
      middle it sweeps `20 + (value / 50) * 19980`, above it the filter is
      fully open at 20 kHz. */
  function FilterFrequency(value: real): (hz: real)
    ensures 0.0 <= value ==> 20.0 <= hz <= 20000.0
    ensures value >= 50.0 ==> hz == 20000.0
    ensures value == 0.0 ==> hz == 20.0
  {
    if value <= 50.0 then 20.0 + (value / 50.0) * 19980.0 else 20000.0
  }

  /** The knob position on the sweeping half that asks for `hz`. */
  function FilterKnobFor(hz: real): real
  {
    (hz - 20.0) / 19980.0 * 50.0
  }

  /** On the sweeping half of the knob FilterKnobFor undoes FilterFrequency. */
  lemma FilterRoundTrip(value: real)
    requires value <= 50.0
    ensures FilterKnobFor(FilterFrequency(value)) == value
  {
  }

  /** Turning the filter knob up never lowers the cutoff, also across the
      switch from sweeping to fully open. */
  lemma {:induction false} FilterMonotone(a: real, b: real)
    requires 0.0 <= a <= b
    ensures FilterFrequency(a) <= FilterFrequency(b)
  {
    if b <= 50.0 {
      assert a / 50.0 <= b / 50.0;
    }
  }

  /** The 0..1 level a 0..100 knob sets, `value / 100`: the gain node's
      level in `setGain`, and the wet mix in `setReverb` and `setDelay`. */
  function KnobLevel(value: real): (level: real)
    ensures 0.0 <= value <= 100.0 ==> 0.0 <= level <= 1.0
    ensures level * 100.0 == value
  {
    value / 100.0
  }
}
