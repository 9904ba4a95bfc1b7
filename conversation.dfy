/** What the two voice-chat screens share: transcript entries and the ten-bar
    audio visualization redrawn by a 150 ms interval. */
module Conversation {

  datatype Entry = Entry(speaker: string, text: string)

  /** The speaker name of the user's own lines. */
  const YOU: string := "You"

  const BAR_COUNT: nat := 10
  const IDLE_HEIGHT: real := 5.0
  const HEIGHT_SPAN: real := 50.0

  /** `Math.random()` draws, one per bar: each in [0, 1). */
  predicate RandomDraws(samples: seq<real>) {
    |samples| == BAR_COUNT && forall i :: 0 <= i < |samples| ==> 0.0 <= samples[i] < 1.0
  }

  /** One redraw: random heights `draw * 50 + 5` while sound is live, otherwise ten
      idle bars of height 5. */
  function Bars(live: bool, samples: seq<real>): (bars: seq<real>)
    requires RandomDraws(samples)
    ensures |bars| == BAR_COUNT
    ensures forall i :: 0 <= i < |bars| ==> IDLE_HEIGHT <= bars[i] < IDLE_HEIGHT + HEIGHT_SPAN
    ensures !live ==> forall i :: 0 <= i < |bars| ==> bars[i] == IDLE_HEIGHT
  {
    if live then seq(BAR_COUNT, i requires 0 <= i < BAR_COUNT => samples[i] * HEIGHT_SPAN + IDLE_HEIGHT)
    else seq(BAR_COUNT, _ => IDLE_HEIGHT)
  }

  /** The visualization before the first redraw is empty; after one it is a full row. */
  ghost predicate ValidBars(bars: seq<real>) {
    (|bars| == 0 || |bars| == BAR_COUNT)
    && forall i :: 0 <= i < |bars| ==> IDLE_HEIGHT <= bars[i] < IDLE_HEIGHT + HEIGHT_SPAN
  }
}
