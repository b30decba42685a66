/**
 * The value-level logic of the scratch card: which reward is drawn, which
 * image goes on the prize layer, how many points the result carries, and the
 * record kept in local storage.
 */
module Rewards {
  import opened Wrappers

  /** One entry of `rewardOptions`: an image reference and optional points. */
  datatype Reward = Reward(image: Option<string>, points: Option<int>)

  /** The value handed to `onScratchComplete`. */
  datatype ScratchResult = ScratchResult(reward: Option<Reward>, points: int)

  /** The `{points, expiry}` record written under the storage key. */
  datatype RewardRecord = RewardRecord(points: int, expiry: int)

  const STORAGE_KEY: string := "scratchReward"
  const MILLIS_PER_MINUTE: int := 60 * 1000

  /** JavaScript truthiness of an optional number (0 and a missing value are falsy). */
  predicate TruthyNumber(x: Option<int>) {
    x.Some? && x.value != 0
  }

  /** JavaScript truthiness of an optional string ("" and a missing value are falsy). */
  predicate TruthyText(x: Option<string>) {
    x.Some? && x.value != ""
  }

  /** `selectedReward?.points`: missing when no reward was selected. */
  function SelectedPoints(selected: Option<Reward>): Option<int> {
    if selected.Some? then selected.value.points else None
  }

  /** `selectedReward?.image`: missing when no reward was selected. */
  function SelectedImage(selected: Option<Reward>): Option<string> {
    if selected.Some? then selected.value.image else None
  }

  /**
   * `Math.floor(r * len)` for a draw `r` in [0, 1): always a valid index,
   * namely the one whose slice [i/len, (i+1)/len) of the unit interval holds r.
   */
  function SelectIndex(len: nat, r: real): (i: nat)
    requires len > 0 && 0.0 <= r < 1.0
    ensures i < len
    ensures i as real <= r * len as real < i as real + 1.0
  {
    var x := r * len as real;
    assert x < len as real;
    x.Floor
  }

  /**
   * The reward-selection effect: with a non-empty option list, the entry at
   * the drawn index; with an empty or absent list, nothing.
   */
  function SelectReward(options: Option<seq<Reward>>, r: real): (sel: Option<Reward>)
    requires 0.0 <= r < 1.0
    ensures sel.Some? <==> options.Some? && |options.value| > 0
    ensures sel.Some? ==> sel.value in options.value
    ensures sel.Some? ==> sel.value == options.value[SelectIndex(|options.value|, r)]
  {
    if options.Some? && |options.value| > 0 then
      Some(options.value[SelectIndex(|options.value|, r)])
    else
      None
  }

  /** The calls made to `onRewardSelected` by the selection effect. */
  function SelectionNotices(listening: bool, sel: Option<Reward>): (calls: seq<Reward>)
    ensures |calls| <= 1
    ensures |calls| == 1 <==> listening && sel.Some?
    ensures forall k :: 0 <= k < |calls| ==> sel == Some(calls[k])
  {
    if listening && sel.Some? then [sel.value] else []
  }

  /**
   * Every entry of a non-empty list is drawn by some value in [0, 1):
   * the draw `i / len` picks index `i`.
   */
  lemma EveryIndexReachable(len: nat, i: nat)
    requires i < len
    ensures 0.0 <= i as real / len as real < 1.0
    ensures SelectIndex(len, i as real / len as real) == i
  {
  }

  /**
   * `selectedReward?.image || prizeImage`: the reward's own image when it is
   * truthy, otherwise the fallback prize image (which may itself be falsy).
   */
  function PrizeImageChoice(selected: Option<Reward>, prizeImage: Option<string>): (img: Option<string>)
    ensures TruthyText(SelectedImage(selected)) ==> img == SelectedImage(selected)
    ensures !TruthyText(SelectedImage(selected)) ==> img == prizeImage
    ensures TruthyText(img) <==> TruthyText(SelectedImage(selected)) || TruthyText(prizeImage)
  {
    var own := SelectedImage(selected);
    if TruthyText(own) then own else prizeImage
  }

  /**
   * The image painted on the prize layer by the setup effect: nothing when a
   * canvas is not mounted or when the chosen image is falsy.
   */
  function PrizeLayerImage(canvasesMounted: bool, selected: Option<Reward>, prizeImage: Option<string>): (img: Option<string>)
    ensures img.Some? ==> img.value != ""
    ensures img.Some? <==> canvasesMounted && (TruthyText(SelectedImage(selected)) || TruthyText(prizeImage))
    ensures img.Some? ==> img == SelectedImage(selected) || (img == prizeImage && !TruthyText(SelectedImage(selected)))
  {
    var choice := PrizeImageChoice(selected, prizeImage);
    if canvasesMounted && TruthyText(choice) then choice else None
  }

  /**
   * The prize-image loads the setup effect starts while the card mounts, in
   * order. The first run sees no reward yet (`selectedReward` starts as
   * `null`); when a reward is then selected, the effect runs again for it.
   * Both loads draw on the same layer, so the one that finishes last is
   * shown; the last load started is always the one for the selected reward.
   */
  function PrizeLoads(canvasesMounted: bool, selected: Option<Reward>, prizeImage: Option<string>): (loads: seq<string>)
    ensures |loads| <= 2
    ensures forall k :: 0 <= k < |loads| ==> loads[k] != ""
    ensures loads != [] <==> PrizeLayerImage(canvasesMounted, selected, prizeImage).Some?
    ensures loads != [] ==> loads[|loads| - 1] == PrizeLayerImage(canvasesMounted, selected, prizeImage).value
    ensures canvasesMounted && TruthyText(prizeImage) ==> loads[0] == prizeImage.value
    ensures !TruthyText(prizeImage) ==> |loads| <= 1
    ensures canvasesMounted && TruthyText(prizeImage) && selected.Some? ==> |loads| == 2
  {
    var first := PrizeLayerImage(canvasesMounted, None, prizeImage);
    var second := if selected.Some? then PrizeLayerImage(canvasesMounted, selected, prizeImage) else None;
    (if first.Some? then [first.value] else []) + (if second.Some? then [second.value] else [])
  }

  /**
   * `selectedReward?.points || scratchedPoints || 0`: the first truthy value
   * of the chain; a reward worth 0 points falls through to `scratchedPoints`.
   */
  function ResultPoints(selected: Option<Reward>, scratchedPoints: Option<int>): (p: int)
    ensures p != 0 <==> TruthyNumber(SelectedPoints(selected)) || TruthyNumber(scratchedPoints)
    ensures TruthyNumber(SelectedPoints(selected)) ==> p == SelectedPoints(selected).value
    ensures !TruthyNumber(SelectedPoints(selected)) && TruthyNumber(scratchedPoints) ==> p == scratchedPoints.value
  {
    var own := SelectedPoints(selected);
    if TruthyNumber(own) then own.value
    else if TruthyNumber(scratchedPoints) then scratchedPoints.value
    else 0
  }

  /**
   * The result passed to `onScratchComplete`: the selected reward (if any)
   * and points that are 0 exactly when no candidate is truthy, and otherwise
   * come from the reward or from `scratchedPoints`, a truthy reward value
   * taking priority.
   */
  function CompletionResult(selected: Option<Reward>, scratchedPoints: Option<int>): (res: ScratchResult)
    ensures res.reward == selected
    ensures res.points == 0 <==> !TruthyNumber(SelectedPoints(selected)) && !TruthyNumber(scratchedPoints)
    ensures res.points != 0 ==> SelectedPoints(selected) == Some(res.points) || scratchedPoints == Some(res.points)
    ensures TruthyNumber(SelectedPoints(selected)) ==> res.points == SelectedPoints(selected).value
    ensures res.points == ResultPoints(selected, scratchedPoints)
  {
    ScratchResult(selected, ResultPoints(selected, scratchedPoints))
  }

  /**
   * The record to persist on completion: present exactly when storing is
   * enabled and the points are positive, and then it expires `minutes`
   * minutes after `now` (in milliseconds).
   */
  function RecordToStore(storeReward: bool, points: int, now: int, minutes: int): (rec: Option<RewardRecord>)
    ensures rec.Some? <==> storeReward && points > 0
    ensures rec.Some? ==> rec.value.points == points && rec.value.points > 0
    ensures rec.Some? ==> rec.value.expiry - now == minutes * MILLIS_PER_MINUTE
  {
    if storeReward && points > 0 then Some(RewardRecord(points, now + minutes * 60 * 1000)) else None
  }

  /** Local storage after the completion's (possible) write. */
  function StoreOutcome(storage: map<string, RewardRecord>, storeReward: bool, points: int, now: int, minutes: int): (after: map<string, RewardRecord>)
    ensures after.Keys == if storeReward && points > 0 then storage.Keys + {STORAGE_KEY} else storage.Keys
    ensures forall k :: k in storage && k != STORAGE_KEY ==> after[k] == storage[k]
    ensures !(storeReward && points > 0) ==> after == storage
    ensures storeReward && points > 0 ==>
      after[STORAGE_KEY] == RewardRecord(points, now + minutes * MILLIS_PER_MINUTE)
  {
    var rec := RecordToStore(storeReward, points, now, minutes);
    if rec.Some? then storage[STORAGE_KEY := rec.value] else storage
  }

  /**
   * When every option has a non-empty image and non-zero points, the last
   * prize load started at mount is the drawn reward's image, it is the only
   * one when there is no fallback prize image, and the result carries that
   * same reward's points.
   */
  lemma PrizeMatchesPoints(options: seq<Reward>, draw: real, prizeImage: Option<string>, scratchedPoints: Option<int>)
    requires 0.0 <= draw < 1.0 && |options| > 0
    requires forall w :: w in options ==> TruthyText(w.image) && TruthyNumber(w.points)
    ensures var sel := SelectReward(Some(options), draw);
      && sel.Some? && sel.value in options && TruthyNumber(sel.value.points)
      && var loads := PrizeLoads(true, sel, prizeImage);
      && loads != [] && loads[|loads| - 1] == sel.value.image.value
      && (!TruthyText(prizeImage) ==> loads == [sel.value.image.value])
      && ResultPoints(sel, scratchedPoints) == sel.value.points.value
  {
  }
}
