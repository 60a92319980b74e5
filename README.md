# Prize wheel spin engine, modelled in Dafny

This project models the spin engine of a React "spin to win" prize wheel, which exists in two
independent implementations:

- `src/components/SpinWheel.tsx`, a canvas wheel. A click draws a target segment by cumulative
  weight. An interval timer then advances the wheel angle tick by tick along an accelerate and
  decelerate curve. On the last tick the angle snaps to the target, the target's label is handed
  to the `onFinished` callback and the timer is released.
- `src/Spin.tsx`, a CSS wheel. Prize probabilities are rescaled to percentages and one prize is
  drawn. The wheel is turned by a computed number of degrees. A 3000 ms timeout ends the spin and
  opens a result dialog, which a close button hides.

Angles of the canvas wheel are measured in turns (`real`): 2π radians is `1.0` and the π/2
pointer offset is `0.25`, so the wrap, the floor and the snap are exact. Degrees stay degrees
in the CSS wheel.

Files:

- `optional.dfy` (`Optional`): an `Option` type, with `GetOr` for `??`.
- `cumulative.dfy` (`Cumulative`): running totals and the "first running total that reaches
  the draw" rule. Both selection loops are proved against it.
- `wheel_geometry.dfy` (`WheelGeometry`): the angle arithmetic of the canvas wheel. This covers
  the wrap loop, the snapped final angle, the needle index, the slice boundaries and label
  truncation.
- `spin_wheel.dfy` (`SpinWheel`): segments, the weighted draw, the phase of a tick and the
  `SpinController` class. The class holds the component's state and closure variables and has
  the `Spin` and `Tick` methods.
- `prize_wheel.dfy` (`PrizeWheel`): the prize table, its rescaling, the prize draw, `findIndex`,
  the segment layout angles and the `SpinningWheel` class. The class has the spin button, the
  result timer and the close button.

Inputs the program takes from its environment become parameters:

- `Math.random()` becomes `u` or `v` in `[0, 1)`.
- `Date.now()` becomes `now`.
- A held interval handle becomes `timerArmed`.
- The sine easing factor becomes `ease`.
- The `onFinished` callback becomes the field `reported`, the sequence of labels handed to it.

What the model shows about the canvas wheel: the snap and the needle formula do not agree. The
snapped angle `(n - t)/n` turns puts slice `t` at the three o'clock position. The needle formula
reads the slice at twelve o'clock; applied to the snapped angle it gives `(t - n/4 - 1) mod n`
(n = 6, t = 0 gives 4), which differs from `t` for every wheel of two or more segments
(`NeedleAtSnapAngle`, `NeedleIsUnderPointer`). On the final tick the wheel is drawn first, at
the angle the tick starts from (src/components/SpinWheel.tsx:113), and only then snapped
(134-135). The same tick sets `needleText` to `labels[t]` and hands `labels[t]` to `onFinished`
(136-138), then clears the interval, and nothing redraws the canvas. So at rest the announced
label is `labels[t]`, while the canvas keeps the frame drawn at the start of the final tick: the
slice under the pointer there is `NeedleIndex` of that earlier angle, which in general is not
`t`. When `isOnlyOnce` is false, and with the closure variables read as plain fields, the
snapped angle is first drawn and read on the first tick of the next spin, where the formula above
gives `(t - n/4 - 1) mod n`. With the default `isOnlyOnce` (line 21) every later spin is refused
(line 80) and the snapped angle is never drawn.

The model keeps the code's behaviour. It also keeps these behaviours one might expect to differ:

- A trigger during a running spin still re-draws the target; it is not a no-op. The
  `!timerHandle` guard at src/components/SpinWheel.tsx:102 only stops a second interval.
- With non-negative weights, an empty weight total is not rejected; the draw then lands on
  index 0. With negative weights a total of 0 can land elsewhere (weights `[-1, 1]` give 1).
- The needle formula is not the inverse of the snap formula.

## Model

| member | source | states |
|---|---|---|
| Cumulative.Prefix | src/components/SpinWheel.tsx:90-93 | defines the running total after `k` weights, added left to right as the selection loops accumulate them |
| Cumulative.Total | src/components/SpinWheel.tsx:87 | defines the sum of all weights, the left-to-right `reduce` starting at 0 |
| Cumulative.FirstReaching | src/components/SpinWheel.tsx:90-98 | defines the outcome of the accumulate-and-break walk over the whole weight list: the first reaching index, or none |
| Cumulative.FirstReachingIn | src/components/SpinWheel.tsx:90-98 | the index found is the first whose running total reaches the draw; finding none means no running total reaches it |
| Cumulative.FirstReachingIff | src/components/SpinWheel.tsx:92-98 | the selection function returns `i` exactly when `i` is the first reaching index, and returns nothing exactly when the walk falls through |
| Cumulative.PrefixMonotone | src/components/SpinWheel.tsx:92-93 | with non-negative weights the running total never decreases |
| Cumulative.ReachedWithinTotal | src/components/SpinWheel.tsx:87-98 | a draw no larger than the total weight is always reached, at an index in range |
| Cumulative.FirstReachingInterval | src/components/SpinWheel.tsx:92-97 | with non-negative weights, index `i` wins exactly when the draw lies in `(Prefix(i), Prefix(i+1)]`, an interval of length `w[i]` |
| Cumulative.ZeroWeightSelection | src/components/SpinWheel.tsx:92-97 | a weight-0 entry wins only if it is the first entry and the draw is not positive; a weight-0 segment at index > 0 is never selected |
| Cumulative.PrefixScaled | src/Spin.tsx:28-32 | scaling every weight by `c` scales every running total by `c` |
| SpinWheel.TextArray | src/components/SpinWheel.tsx:50 | defines the label array: the segment texts in order with empty ones filtered out |
| SpinWheel.Weights | src/components/SpinWheel.tsx:86 | defines the weights: one per segment, a missing weight counting as 1 |
| SpinWheel.DrawnTarget | src/components/SpinWheel.tsx:86-100 | defines the target a spin records: the first index whose running total reaches `u * total`, else 0 |
| SpinWheel.MaxSpeed | src/components/SpinWheel.tsx:104 | the peak speed π/n radians per tick is positive and `2n` ticks at it make one full turn |
| SpinWheel.TextArrayAllLabelled | src/components/SpinWheel.tsx:50 | when every segment has a non-empty label, the filtered label array lines up with the segments index by index |
| SpinWheel.SelectSegment | src/components/SpinWheel.tsx:86-89 | weights default to 1, the draw is `u * total`, and the target is the drawn index for that draw |
| SpinWheel.AccumulateUntilReached | src/components/SpinWheel.tsx:90-98 | the loop returns the first index whose running total reaches the draw, or 0 when none does; in range for a non-empty weight list |
| SpinWheel.DrawIsReached | src/components/SpinWheel.tsx:86-98 | for `u` in `[0,1)` and a non-negative total, the target is the first reaching index, so the default 0 is never reached by falling through |
| SpinWheel.PhaseAt | src/components/SpinWheel.tsx:115-126 | a tick accelerates iff elapsed < upTime, and the spin is done iff elapsed >= upTime + downTime |
| SpinWheel.SpinController.constructor | src/components/SpinWheel.tsx:31-46 | initial state: not started or finished, no target, no timer, angle 0, speed π/n, durations scaled by the segment count |
| SpinWheel.SpinController.Spin | src/components/SpinWheel.tsx:79-108 | no-op once a spin-once wheel has finished; otherwise it sets started, clears finished and re-draws the target. It arms the timer (start time, frames 0, speed) only when none is held; a held timer keeps them |
| SpinWheel.SpinController.Tick | src/components/SpinWheel.tsx:111-150 | frames + 1; the needle is read at the drawn angle; the angle advances by speed times ease and wraps below one turn. On the final tick it is finished, snaps to `(n-t)/n`, reports the target's label once, disarms the timer and sets delta 0 |
| WheelGeometry.Truncated | src/components/SpinWheel.tsx:193 | the drawn label is a prefix of the text of length min(len, 21) |
| WheelGeometry.Wrapped | src/components/SpinWheel.tsx:129 | defines the wrapped angle: unchanged below one turn, otherwise its whole turns taken off |
| WheelGeometry.WrappedWithinOneTurn | src/components/SpinWheel.tsx:128-129 | from a non-negative angle the wrapped angle is in `[0,1)` and differs by a whole non-negative number of turns |
| WheelGeometry.WrapTurns | src/components/SpinWheel.tsx:129 | the subtract-a-turn loop yields the wrapped angle |
| WheelGeometry.SnapAngle | src/components/SpinWheel.tsx:134 | defines the snapped final angle `(n - t)/n` turns for target `t` |
| WheelGeometry.SnapAngleInRange | src/components/SpinWheel.tsx:134 | the snapped angle `(n-t)/n` lies in `(0,1]` and is a full turn exactly for target 0 |
| WheelGeometry.NeedleIndex | src/components/SpinWheel.tsx:259-263 | defines the needle index `n - floor((a + 1/4) n) - 1`, wrapped once up or down by `n` |
| WheelGeometry.NeedleIndexInRange | src/components/SpinWheel.tsx:259-263 | for an angle in `[0,1]` turns, one wrap brings the needle index into `[0,n)` |
| WheelGeometry.PointerAt | src/components/SpinWheel.tsx:246-254 | defines where the needle is drawn: straight up, three quarters of a turn in canvas angles, `m` whole turns on |
| WheelGeometry.NeedleIsUnderPointer | src/components/SpinWheel.tsx:259-263 | the needle index names the slice whose arc covers the top of the wheel (start excluded, end included) |
| WheelGeometry.NeedleAtSnapAngle | src/components/SpinWheel.tsx:259-263 | at the angle snapped to for target `t` (line 134), the needle index is `(t - n/4 - 1) mod n`, which equals `t` only for a one-segment wheel |
| WheelGeometry.ArcStart | src/components/SpinWheel.tsx:210 | defines the boundary `PI2 * (k / n) + angleCurrent` in turns: where slice `k` starts and slice `k - 1` ends |
| WheelGeometry.WheelSlices | src/components/SpinWheel.tsx:200-213 | slice `k` runs from `angle + k/n` to `angle + (k+1)/n` with its truncated label; the slices are contiguous, start at `angle` and end at `angle + 1` |
| PrizeWheel.StandardPrizes | src/Spin.tsx:13-19 | defines the five built-in prizes with their ids, names, colours, probabilities and text colours |
| PrizeWheel.StandardPrizesWellFormed | src/Spin.tsx:13-19 | the built-in prize table has non-negative probabilities totalling 100 and distinct ids |
| PrizeWheel.TotalProbability | src/Spin.tsx:28 | defines the probability total, the left-to-right `reduce` starting at 0 |
| PrizeWheel.Normalized | src/Spin.tsx:28-32 | the rescaled table keeps every field but the probability, and each probability keeps its share: `p' * total == p * 100` |
| PrizeWheel.NormalizedSumsToHundred | src/Spin.tsx:28-32 | the rescaled probabilities sum to exactly 100 and stay non-negative |
| PrizeWheel.SelectedPosition | src/Spin.tsx:34-44 | defines the position of the selected prize: the first rescaled prize whose cumulative percentage reaches the draw, else the last position |
| PrizeWheel.GetWeightedRandomPrize | src/Spin.tsx:27-45 | the result is the first rescaled prize whose cumulative percentage reaches `u * 100`, else the last prize |
| PrizeWheel.FallbackUnreachable | src/Spin.tsx:34-44 | for a well-formed table and a draw in `[0,100)` a prize is always reached, so the last-prize fallback is dead |
| PrizeWheel.IndexOfId | src/Spin.tsx:58 | `findIndex` by id returns the first position holding the id, or -1 when none does |
| PrizeWheel.IndexOfOwnId | src/Spin.tsx:58 | with distinct ids, looking up an entry's id finds that entry's position |
| PrizeWheel.SegmentRotation | src/Spin.tsx:90-91 | defines the rotation of segment `k`: `k` segment angles of `360/len` degrees |
| PrizeWheel.SegmentSkew | src/Spin.tsx:92 | defines the skew of every segment: `90 - 360/len` degrees |
| PrizeWheel.SegmentsTileCircle | src/Spin.tsx:89-92 | segment `k` is rotated `k * 360/len` degrees, consecutive segments are one segment angle apart, the last closes the circle at 360, and the skew is `90 - 360/len` |
| PrizeWheel.SpinningWheel.constructor | src/Spin.tsx:21-25 | initial state: not spinning, rotation 0, no result, dialog hidden, count 0 |
| PrizeWheel.SpinningWheel.SpinWheel | src/Spin.tsx:47-64 | no-op while spinning; otherwise spinning, dialog hidden, count + 1, result = drawn prize, rotation grows by `360 * v * len + (360/len - prizeIndex)` |
| PrizeWheel.SpinningWheel.SpinTimerExpires | src/Spin.tsx:66-75 | when the timeout fires, spinning ends and the dialog opens; nothing else changes |
| PrizeWheel.SpinningWheel.CloseResult | src/Spin.tsx:142-144 | closing hides the dialog and changes nothing else |

## Left out

- React hooks, re-rendering and JSX. State and closure variables are plain fields of one object. The stale-closure effects of re-creating the `let` locals and capturing state per render are not modelled.
- Canvas drawing calls, the canvas lookup by id and the click listener. Only the slice and label arithmetic and the needle index are kept. `Tick` assumes the canvas context exists; without it the source skips the needle read.
- Audio playback of the tick sound. It is fire-and-forget output.
- The clock and timers. `Date.now`, `setInterval`, `clearInterval` and `setTimeout` become a `now` parameter and a boolean. The interval period (`5 * n` ms) and the 3000 ms delay are not modelled.
- `Math.random`. It becomes a parameter in `[0, 1)`.
- The sine easing curve. It is floating-point trigonometry, so its factor is the input `ease`. The shape of the velocity curve is not stated: its monotonicity and its continuity at the phase boundary are not modelled.
- Floating-point rounding. Angles and probabilities are exact reals, so the model does not show drift that IEEE doubles would add before the snap.
- SpinWheel.SpinController.Tick: requires a non-negative `ease` before the spin's end. The final tick may carry a negative value, as the cosine does past progress 1.
- SpinWheel.SpinController.constructor: requires a positive `downDuration`. With 0 the source divides by zero at src/components/SpinWheel.tsx:123: a spin finishes on the first tick past `upTime` (the progress is Infinity), or one tick later when the elapsed time equals `upTime` exactly (0/0 is NaN).
- SpinWheel.SpinController.constructor: requires at least one segment. With an empty wheel the source computes its peak speed as π/0 and reports `segmentTextArray[0]`, which is `undefined`; neither has a counterpart among exact reals and strings.
- SpinWheel.SpinController.constructor: requires every segment label to be non-empty. With an empty label the source's filtered label array is shorter than the weight array and the indices no longer line up. `TextArray` models the filter itself.
- The redraw of the snapped angle. Nothing in the source draws the wheel between the final tick and the next spin, so the model does not state what a re-render at rest would show.
- Segment colours. They are display-only, and the filtered colour array is not modelled.
- PrizeWheel.Normalized: requires a positive total. With a total of 0 the source divides by zero and produces NaN or infinite probabilities (NaN for a zero entry, ±Infinity for a nonzero one, which needs a negative entry elsewhere).
- WheelGeometry.Truncated: counts characters. JavaScript's `substring` counts UTF-16 code units.
- `src/App.tsx`. It only holds a hard-coded configuration.
- `src/components/SpinWheel.interface.tsx`. It only declares types and is used only for the shape of `Segment`.
