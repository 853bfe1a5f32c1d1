/** The loading spinner of src/components/mod.rs. */
module Spinner {
  /** The ten braille frames, in display order. */
  const SpinnerFrames: seq<char> := [
    '\U{280B}', '\U{2819}', '\U{2839}', '\U{2838}', '\U{283C}',
    '\U{2834}', '\U{2826}', '\U{2827}', '\U{2807}', '\U{280F}'
  ]

  /** The frame shown at `tick`: each frame is held for three ticks. */
  function SpinnerFrame(tick: nat): (ch: char)
    ensures ch in SpinnerFrames
  {
    var i := (tick / 3) % |SpinnerFrames|;
    assert 0 <= i < |SpinnerFrames|;
    SpinnerFrames[i]
  }

  /** The animation repeats every 30 ticks. */
  lemma SpinnerPeriod(tick: nat)
    ensures SpinnerFrame(tick + 30) == SpinnerFrame(tick)
  {
    assert (tick + 30) / 3 == tick / 3 + 10;
    assert (tick / 3 + 10) % 10 == (tick / 3) % 10;
  }

  /** Ticks 3k, 3k+1 and 3k+2 show the same frame. */
  lemma SpinnerHoldsThreeTicks(k: nat)
    ensures SpinnerFrame(3 * k) == SpinnerFrame(3 * k + 1) == SpinnerFrame(3 * k + 2)
  {
    assert (3 * k) / 3 == k && (3 * k + 1) / 3 == k && (3 * k + 2) / 3 == k;
  }

  /** Within one period, frame k is shown at ticks 3k..3k+2, so every frame appears. */
  lemma SpinnerShowsEveryFrame(k: nat)
    requires k < |SpinnerFrames|
    ensures SpinnerFrame(3 * k) == SpinnerFrames[k]
  {
    assert (3 * k) / 3 == k;
  }
}
