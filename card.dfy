/**
 * The ScratchCard component as an object: its props, the reward chosen when
 * it mounts, the two state flags `isAutoScratching` / `isRevealed`, the
 * sweep's loop variables, and what it hands to the outside world (calls to
 * `onScratchComplete` and local storage). Canvas drawing is reduced to the
 * list of cursor positions at which a disc was erased.
 */
module Card {
  import opened Wrappers
  import opened Rewards
  import opened Sweep

  /**
   * The props the reveal logic reads; a callback prop is modelled by whether
   * it was supplied, and a prop that is not passed by its default value.
   */
  datatype Props = Props(
    rewardOptions: Option<seq<Reward>>,
    prizeImage: Option<string>,
    scratchedPoints: Option<int>,
    autoScratchSpeed: real,
    rewardExpiryMinutes: int,
    storeReward: bool,
    onRewardSelected: bool,
    onScratchComplete: bool)

  /** The defaults the component's parameter list gives when a prop is not passed. */
  const DEFAULT_AUTO_SCRATCH_SPEED: real := 1.0
  const DEFAULT_REWARD_EXPIRY_MINUTES: int := 5
  const DEFAULT_STORE_REWARD: bool := true

  class ScratchSurface {
    const props: Props
    /** The reward drawn by the selection effect at mount; never re-rolled. */
    const selected: Option<Reward>
    /** The calls made to `onRewardSelected`. */
    const selectionCalls: seq<Reward>
    /** The prize-image loads the setup effect started at mount, in order. */
    const prizeLoads: seq<string>

    var scratching: bool     // isAutoScratching
    var revealed: bool       // isRevealed
    var framePending: bool   // a next frame is scheduled (animationRef)
    var angle: real
    var radius: real
    var maxRadius: real
    /** The cursor position of every disc erased so far, in frame order. */
    var discs: seq<Cursor>
    /** The calls made to `onScratchComplete`, in order. */
    var completions: seq<ScratchResult>
    /** Local storage, keyed by name. */
    var storage: map<string, RewardRecord>

    /** The value the sweep reports on completion. */
    function Result(): ScratchResult
      reads this
    {
      CompletionResult(selected, props.scratchedPoints)
    }

    /**
     * The object invariant: the flags only ever describe Idle, Sweeping
     * (with or without a frame pending) or Revealed; the loop variables are
     * the closed form of the frames run so far; with a positive step, the
     * sweep is revealed after exactly `FrameCount` frames; and a completion
     * was reported once, on reveal.
     */
    ghost predicate Valid()
      reads this
    {
      && (revealed ==> !scratching)
      && (framePending ==> scratching)
      && Cursor(angle, radius) == CursorAt(|discs|, props.autoScratchSpeed)
      && (forall k :: 0 <= k < |discs| ==> discs[k] == CursorAt(k, props.autoScratchSpeed))
      && (discs != [] <==> framePending || revealed)
      && (framePending ==> radius < maxRadius)
      && (revealed ==> radius >= maxRadius)
      && (props.autoScratchSpeed > 0.0 && framePending ==> |discs| < FrameCount(maxRadius, props.autoScratchSpeed))
      && (props.autoScratchSpeed > 0.0 && revealed ==> |discs| == FrameCount(maxRadius, props.autoScratchSpeed))
      && completions == (if revealed && props.onScratchComplete then [Result()] else [])
    }

    /** Frames still to run before the reveal, for a sweep that makes progress. */
    ghost function FramesLeft(): nat
      reads this
      requires Valid() && props.autoScratchSpeed > 0.0
    {
      if revealed then 0 else FrameCount(maxRadius, props.autoScratchSpeed) - |discs|
    }

    /**
     * What one run of `animate` does: erase a disc at the cursor, advance the
     * cursor, then either schedule the next frame or finish: clear the
     * scratching flag, reveal, report the result and store the record.
     */
    twostate predicate FrameRan(now: int)
      reads this
    {
      && discs == old(discs) + [old(Cursor(angle, radius))]
      && Cursor(angle, radius) == Advance(old(Cursor(angle, radius)), props.autoScratchSpeed)
      && (framePending <==> radius < maxRadius)
      && (framePending ==>
            scratching && !revealed && completions == old(completions) && storage == old(storage))
      && (!framePending ==>
            && !scratching && revealed
            && completions == old(completions) + (if props.onScratchComplete then [Result()] else [])
            && storage == StoreOutcome(old(storage), props.storeReward, Result().points,
                                       now, props.rewardExpiryMinutes))
    }

    /**
     * Mounting: the setup effect runs with no reward, the selection effect
     * draws with `draw`, and the setup effect runs again for the reward.
     */
    constructor (p: Props, draw: real, canvasesMounted: bool, initialStorage: map<string, RewardRecord>)
      requires 0.0 <= draw < 1.0
      ensures Valid()
      ensures props == p
      ensures selected == SelectReward(p.rewardOptions, draw)
      ensures selectionCalls == SelectionNotices(p.onRewardSelected, selected)
      ensures prizeLoads == PrizeLoads(canvasesMounted, selected, p.prizeImage)
      ensures !scratching && !revealed && !framePending
      ensures discs == [] && completions == [] && storage == initialStorage
    {
      props := p;
      var sel := SelectReward(p.rewardOptions, draw);
      selected := sel;
      selectionCalls := SelectionNotices(p.onRewardSelected, sel);
      prizeLoads := PrizeLoads(canvasesMounted, sel, p.prizeImage);
      scratching, revealed, framePending := false, false, false;
      angle, radius, maxRadius := 0.0, START_RADIUS, 0.0;
      discs, completions := [], [];
      storage := initialStorage;
    }

    /**
     * `autoScratch`, on a click or a programmatic call at time `now`, with the
     * canvas of the given size or no canvas at all. Ignored while Sweeping or
     * Revealed. The scratching flag is raised before the canvas is looked
     * at, so with no canvas the card stays Sweeping with nothing scheduled.
     * Otherwise the first frame runs at once.
     */
    method Trigger(canvas: Option<CanvasSize>, now: int)
      requires Valid()
      modifies this
      ensures Valid()
      ensures old(scratching || revealed) ==> unchanged(this)
      ensures !old(scratching || revealed) && canvas.None? ==>
        && scratching && !revealed && !framePending && discs == []
        && completions == old(completions) && storage == old(storage)
      ensures !old(scratching || revealed) && canvas.Some? ==>
        && maxRadius == MaxRadius(canvas.value)
        && FrameRan(now)
    {
      if scratching || revealed {
        return;
      }
      scratching := true;
      if canvas.None? {
        return;
      }
      angle, radius := 0.0, START_RADIUS;
      maxRadius := MaxRadius(canvas.value);
      Animate(now);
    }

    /** A scheduled animation frame at time `now`. */
    method Step(now: int)
      requires Valid() && framePending
      modifies this
      ensures Valid()
      ensures maxRadius == old(maxRadius)
      ensures FrameRan(now)
      ensures props.autoScratchSpeed > 0.0 ==> FramesLeft() < old(FramesLeft())
    {
      Animate(now);
    }

    /** The body of `animate`: one frame of the sweep. */
    method Animate(now: int)
      requires Valid() && scratching && (framePending || discs == [])
      modifies this
      ensures Valid()
      ensures maxRadius == old(maxRadius)
      ensures FrameRan(now)
    {
      ghost var next := Advance(Cursor(angle, radius), props.autoScratchSpeed);
      assert next == CursorAt(|discs| + 1, props.autoScratchSpeed);
      discs := discs + [Cursor(angle, radius)];
      angle := angle + ANGLE_STEP;
      radius := radius + props.autoScratchSpeed;
      if props.autoScratchSpeed > 0.0 {
        FrameCountIsLeast(maxRadius, props.autoScratchSpeed, |discs|);
      }
      if radius < maxRadius {
        framePending := true;
      } else {
        framePending := false;
        scratching := false;
        revealed := true;
        var result := Result();
        if props.onScratchComplete {
          completions := completions + [result];
        }
        storage := StoreOutcome(storage, props.storeReward, result.points, now, props.rewardExpiryMinutes);
      }
    }
  }
}
