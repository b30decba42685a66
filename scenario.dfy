/**
 * A client of the card: two prizes worth 999 and 899 points, a 100 by 100
 * canvas, the default step of 1 pixel per frame and the default five-minute
 * expiry; one trigger, then scheduled frames until none is pending.
 */
module Scenario {
  import opened Wrappers
  import opened Rewards
  import opened Sweep
  import opened Card

  const WINNING_CARD: string := "winning-card.jpg"
  const PAY_800: string := "Google-Pay-Rs-800.png"
  const TWO_PRIZES: seq<Reward> := [Reward(Some(WINNING_CARD), Some(999)), Reward(Some(PAY_800), Some(899))]

  /**
   * Runs the card from mount to reveal with random draw `draw`; every frame
   * sees the clock at `now`. Returns what `onScratchComplete` received, the
   * prize-image loads started at mount, the number of frames and the stored record.
   */
  method RevealTwoPrizeCard(draw: real, now: int)
    returns (res: ScratchResult, loads: seq<string>, frames: nat, record: Option<RewardRecord>)
    requires 0.0 <= draw < 1.0
    ensures frames == 40
    ensures res.reward.Some? && res.reward.value in TWO_PRIZES
    ensures (res.points == 999 && loads == [WINNING_CARD]) || (res.points == 899 && loads == [PAY_800])
    ensures record == Some(RewardRecord(res.points, now + 5 * MILLIS_PER_MINUTE))
  {
    var props := Props(Some(TWO_PRIZES), None, None, DEFAULT_AUTO_SCRATCH_SPEED,
                       DEFAULT_REWARD_EXPIRY_MINUTES, DEFAULT_STORE_REWARD, true, true);
    var card := new ScratchSurface(props, draw, true, map[]);
    FortyFrames();
    card.Trigger(Some(CanvasSize(100, 100)), now);
    while card.framePending
      invariant card.Valid() && card.props == props
      invariant card.maxRadius == 50.0 && card.discs != []
      invariant !card.revealed ==> card.storage == map[]
      invariant card.revealed ==>
        card.storage == StoreOutcome(map[], true, card.Result().points, now, 5)
      decreases card.FramesLeft()
    {
      card.Step(now);
    }
    frames := |card.discs|;
    res := card.completions[0];
    loads := card.prizeLoads;
    record := if STORAGE_KEY in card.storage then Some(card.storage[STORAGE_KEY]) else None;
  }

  /**
   * A trigger that arrives before the canvas exists leaves the card Sweeping
   * for good: a later trigger, canvas or not, is ignored, no disc is erased
   * and no completion is reported.
   */
  method TriggerBeforeLayout(draw: real, now: int)
    returns (scratching: bool, revealed: bool, frames: nat, reported: nat)
    requires 0.0 <= draw < 1.0
    ensures scratching && !revealed && frames == 0 && reported == 0
  {
    var props := Props(Some(TWO_PRIZES), None, None, DEFAULT_AUTO_SCRATCH_SPEED,
                       DEFAULT_REWARD_EXPIRY_MINUTES, DEFAULT_STORE_REWARD, true, true);
    var card := new ScratchSurface(props, draw, false, map[]);
    card.Trigger(None, now);
    card.Trigger(Some(CanvasSize(100, 100)), now);
    scratching, revealed := card.scratching, card.revealed;
    frames, reported := |card.discs|, |card.completions|;
  }
}
