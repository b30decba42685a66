# ScratchCard reveal logic, modelled in Dafny

This project models the reveal behaviour of the React `ScratchCard` widget
(`src/ScratchCard.jsx`). The widget draws an opaque scratch layer over a
prize layer and uncovers the prize with an auto-scratch spiral sweep.
Canvas drawing is left out. The model covers:

- **Reward selection** (`Rewards.SelectIndex`, `Rewards.SelectReward`). A draw `r` in [0, 1)
  picks index `floor(r * len)` from a non-empty `rewardOptions`. An empty or absent list
  selects nothing and `onRewardSelected` is not called.
- **Prize image** (`Rewards.PrizeImageChoice`, `Rewards.PrizeLayerImage`, `Rewards.PrizeLoads`).
  One run of the setup effect loads `selectedReward?.image || prizeImage`, with JavaScript
  truthiness (an empty string is falsy). At mount the effect runs first with no reward and
  then again for the selected one, so up to two loads start.
- **The component** (`Card.ScratchSurface`). It holds the `isAutoScratching` and `isRevealed`
  flags (Idle, Sweeping, Revealed), the sweep's loop variables `angle` and `radius`, and the
  outside effects: the calls to `onScratchComplete` and local storage.
  - `Trigger` is `autoScratch`.
  - `Step` is one scheduled `requestAnimationFrame` callback.
  - `Animate` is the body of `animate`. `Trigger` runs it immediately for the first frame.
  - Each erased disc is recorded by the cursor position it was drawn at.
- **Sweep arithmetic** (`Sweep`). The cursor starts at `(0, 10)` and each frame adds `0.2` and
  the step. `FrameCount` is the least `n >= 1` with `10 + n * step >= maxRadius`, where
  `maxRadius = min(width, height) / 2`.
- **Completion**. The points are the first truthy value of `selectedReward?.points`,
  `scratchedPoints` and `0`, so a reward worth 0 points falls through. The
  `{points, expiry}` record is stored under `"scratchReward"` only when `storeReward` is set
  and the points are positive. Its expiry is `now + minutes * 60000`.

JavaScript `null`/`undefined` is `Option.None`. A callback prop is a flag saying whether it was
supplied; its calls are recorded as a sequence. `Date.now()` and `Math.random()` are parameters
(`now`, `draw`). The canvas is `Option<CanvasSize>` at trigger time. A prop that is not passed
is modelled by passing its default from the parameter list (lines 15-17):
`DEFAULT_AUTO_SCRATCH_SPEED` (1), `DEFAULT_REWARD_EXPIRY_MINUTES` (5) and
`DEFAULT_STORE_REWARD` (true) in module `Card`.

Two behaviours of the code are worth stating on their own:

- A trigger with no canvas is not a no-op. `autoScratch` raises `isAutoScratching` (line 79)
  before it checks the canvas (line 82), so the card stays Sweeping with nothing scheduled,
  and every later trigger is ignored (`Card.ScratchSurface.Trigger`,
  `Scenario.TriggerBeforeLayout`).
- The points fall back to `scratchedPoints` whenever the drawn reward has 0 or no points,
  not only when no reward list is supplied.

## Model

| member | source | states |
|---|---|---|
| Rewards.SelectIndex | src/ScratchCard.jsx:29 | for `r` in [0, 1) the index lies in `[0, len)` and is the one whose slice `[i, i+1)` holds `r * len` |
| Rewards.EveryIndexReachable | src/ScratchCard.jsx:29 | every index of a non-empty list is drawn by some `r` in [0, 1), namely `i / len` |
| Rewards.SelectReward | src/ScratchCard.jsx:28-31 | a reward is selected iff the list is present and non-empty; the selected reward is an element of the list, the one at the drawn index |
| Rewards.SelectionNotices | src/ScratchCard.jsx:33-35 | `onRewardSelected` is called at most once, exactly when it is supplied and a reward was selected, and with that reward |
| Rewards.PrizeImageChoice | src/ScratchCard.jsx:66 | the reward's own image wins when truthy; otherwise the fallback prize image; the choice is truthy iff one of the two is |
| Rewards.PrizeLayerImage | src/ScratchCard.jsx:41-71 | the prize layer gets an image iff the canvases are mounted and the reward image or the fallback is truthy; what it gets is non-empty and is the reward's image, or the fallback when the reward has none |
| Rewards.PrizeLoads | src/ScratchCard.jsx:24-74 | the loads started at mount are at most two, all non-empty: first a truthy `prizeImage` (the run that sees `selectedReward == null`), then the image for the selected reward, so exactly two loads when the canvases are mounted, `prizeImage` is truthy and a reward is selected; some load starts iff one setup run has an image, and the last one started is the image for the selected reward; with no truthy `prizeImage` there is at most one |
| Rewards.ResultPoints | src/ScratchCard.jsx:119 | points are non-zero iff the reward's points or `scratchedPoints` is truthy; a truthy reward value wins; otherwise a truthy `scratchedPoints`; so a 0-point reward falls through |
| Rewards.CompletionResult | src/ScratchCard.jsx:117-120 | the result carries the selected reward; its points are 0 exactly when neither the reward's points nor `scratchedPoints` is truthy; a truthy reward value wins over `scratchedPoints`, and the points are those of the `ResultPoints` chain |
| Rewards.RecordToStore | src/ScratchCard.jsx:126-130 | a record exists iff `storeReward` holds and the points are positive; it holds those points and expires `minutes * 60000` ms after `now` |
| Rewards.StoreOutcome | src/ScratchCard.jsx:126-131 | storage gains or replaces only the `"scratchReward"` key, and only when storing and points > 0; every other key and the no-write case leave storage unchanged |
| Rewards.PrizeMatchesPoints | src/ScratchCard.jsx:29-119 | when every option has an image and non-zero points, the last prize load started at mount is the drawn reward's image (the only load when `prizeImage` is falsy), and the result carries that same reward's points |
| Sweep.MaxRadius | src/ScratchCard.jsx:95 | the maximum radius is half the shorter canvas side: at most half of each side and equal to half of one |
| Sweep.Advance | src/ScratchCard.jsx:107-108 | one frame's update moves the cursor after `n` frames, `(0.2 n, 10 + n step)`, to the cursor after `n + 1` frames |
| Sweep.IterateClosedForm | src/ScratchCard.jsx:93-108 | applying the per-frame update `n` times from `(0, 10)` gives angle `0.2 * n` and radius `10 + n * step` |
| Sweep.FrameCount | src/ScratchCard.jsx:107-112 | with a positive step, the frame count is at least 1, its radius reaches `maxRadius`, and the frame before it (if any) stays below |
| Sweep.FrameCountIsLeast | src/ScratchCard.jsx:107-112 | a frame ending at radius `10 + k * step` reaches `maxRadius` iff `k >= FrameCount`: the sweep stops at the first such frame and never before |
| Sweep.FortyFrames | src/ScratchCard.jsx:93-112 | a 100 by 100 canvas gives `maxRadius = 50`, and step 1 gives exactly 40 frames |
| Sweep.SmallCanvasOneFrame | src/ScratchCard.jsx:99-136 | when `maxRadius <= 10 + step` exactly one frame runs; the first frame always runs |
| Sweep.NoEndWithoutProgress | src/ScratchCard.jsx:107-111 | with a step of 0 or less and a first frame that does not finish (`maxRadius > 10 + step`), no frame `k >= 1` reaches `maxRadius`: the sweep does not end |
| Card.ScratchSurface.constructor | src/ScratchCard.jsx:22-74 | mounting selects the reward, notifies the listener, records the prize loads of both setup runs (`PrizeLoads`), and starts Idle with nothing reported and storage as found |
| Card.ScratchSurface.Trigger | src/ScratchCard.jsx:76-137 | no change at all while Sweeping or Revealed; from Idle with no canvas: Sweeping, nothing scheduled, no disc, no report, storage unchanged; with a canvas: `maxRadius` from its size, then one frame at once |
| Card.ScratchSurface.Step | src/ScratchCard.jsx:99-134 | a scheduled frame runs one frame, keeps `maxRadius`, and with a positive step strictly reduces the frames left |
| Card.ScratchSurface.Animate | src/ScratchCard.jsx:99-134 | erases one disc at the cursor and advances it by `(0.2, step)`. If the radius is still below `maxRadius`, the next frame is scheduled and nothing else changes. Otherwise the sweep stops: Revealed, one report of `{reward, points}` if a listener is supplied, and storage as `StoreOutcome` gives. The invariant keeps Revealed terminal, the loop variables at `(0.2 n, 10 + n step)`, the sweep at exactly `FrameCount` frames, and the report count at one per reveal |
| Scenario.RevealTwoPrizeCard | src/ScratchCard.jsx:27-137 | with rewards worth 999 and 899 on a 100 by 100 canvas: 40 frames, a result whose reward is in the list and whose points (999 or 899) match the one prize image loaded, and a stored record expiring five minutes later |
| Scenario.TriggerBeforeLayout | src/ScratchCard.jsx:76-82 | a trigger before the canvas exists leaves the card Sweeping with no frame and no report, and a later trigger with a canvas is ignored |

## Left out

- Canvas drawing is left out: `getContext`, `arc`/`fill`, the `destination-out` compositing, the `#ddd` fill, `drawImage` and sizing from `offsetWidth`/`offsetHeight`. These are browser calls. A disc is recorded by its cursor position, and the canvas size is an input.
- The disc position (`Math.cos`/`Math.sin` of the cursor plus `Math.random() * 5` jitter) is left out. It is floating point and randomness, and it does not affect termination or the result.
- The erase-disc size `scratchRadius` is left out. It only affects drawing.
- The asynchronous `img.onload` is left out. The model records which prize loads start, not whether or in which order they finish.
- Card.ScratchSurface.constructor: does not say which image the prize layer finally shows. With a truthy `prizeImage` and a selected reward, the setup run that sees `selectedReward == null` and the run for the reward both start a load onto the same layer, and the one that finishes last wins. The model keeps both loads in order (`prizeLoads`).
- The setup effect re-running when `scratchImage` or `prizeImage` change is not modelled; props are fixed.
- Card.ScratchSurface.Animate: assumes `onScratchComplete` and `localStorage.setItem` return normally. If the listener throws, the card is already Revealed but no record is written; if `setItem` throws (storage full or disabled), storage is unchanged. The model always applies `StoreOutcome`.
- Card.ScratchSurface.constructor: assumes `onRewardSelected` returns normally; a throw out of the selection effect is not modelled.
- `requestAnimationFrame` scheduling is reduced to the `framePending` flag and explicit `Step` calls. Unmount cleanup (`cancelAnimationFrame`) is left out. So is the effect that `cancelAnimationFrame` has on a completed sweep, since nothing is pending then.
- React re-render timing and stale closures are left out. This includes double clicks that arrive before a re-render, which the model serialises.
- The selection effect runs once, at mount (`Card.ScratchSurface.constructor`). Re-running it when the `rewardOptions` or `onRewardSelected` reference changes is not modelled.
- JavaScript numbers are not modelled exactly. Points, `scratchedPoints`, `now` and `rewardExpiryMinutes` are integers, so NaN, fractional minutes and float rounding are not covered. The canvas size is a natural number. `angle`, `radius` and the step are exact reals, not IEEE doubles.
- `localStorage` is a map from key to record. JSON serialisation is not modelled.
- JSX markup, button labels, `disabled` styling, PropTypes and defaultProps are left out. They are UI.
- `src/components/events/Events.jsx` is not part of this model. It is page wiring whose random pick is the same `floor(random * len)` as `Rewards.SelectIndex`.
- Card.ScratchSurface.Step: requires a pending frame, because the browser only runs callbacks that were scheduled.
