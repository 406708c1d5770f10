# Smooth-scroll polyfill, modelled in Dafny

This project models `src/lib/scrollBy.js`, a trimmed copy of
smoothscroll-polyfill. The polyfill replaces `window.scroll`/`scrollTo`,
`window.scrollBy`, `Element.prototype.scroll`/`scrollTo` and
`Element.prototype.scrollBy` so that `behavior: "smooth"` (the
`ScrollBehavior` enumeration of the `ScrollToOptions` dictionary in the W3C
CSSOM View Module) animates the scroll offset instead of jumping.

The model has four modules:

- `JsNumbers` (`js_numbers.dfy`) models JavaScript numbers as exact `real`s.
  - `~~v` is ECMAScript ToInt32: truncate toward zero, reduce modulo 2^32, then re-read as a signed 32-bit integer.
  - Lemmas show that `~~` is truncation inside the 32-bit range and that applying it twice is the same as applying it once.
- `Resolution` (`resolution.dfy`) models how a call is read. `Arg` is the first argument: no argument, `null`, a bare number, or an options object `{left?, top?, behavior?}`. The call also has an optional second number.
  - `ShouldBailOut` is `shouldBailOut`.
  - `Arg.ToInt32Value` is `~~arguments[0]` of element `scrollBy` (line 267): a bare number is converted, an options object gives 0.
  - One "plan" function per entry point turns a call and the current offset into `NoOp`, an error, a call of the native primitive (`Jump`/`JumpBy`), or a smooth animation towards a destination (`Smooth`).
  - The lemmas relate the plans to each other: relative to absolute, smooth to non-smooth, `scrollBy` to `scroll`.
- `FrameMath` (`frame_math.dfy`) models the arithmetic of one animation frame.
  - `Elapsed` is the clamped elapsed fraction (lines 88-91).
  - `Position` is the eased interpolation a frame writes (lines 94-97).
  - `Arrived` is the stop test of line 102: the written offset is the destination.
  - The lemmas say when a frame arrives and how positions move between frames.
- `Polyfill` (`polyfill.dfy`) is the imperative part.
  - `Window` and `Element` are classes holding the offsets the polyfill reads and writes.
  - Their `Scroll`/`ScrollBy` methods are the patched entry points. Each method's contract ties the new offsets and the outcome to its plan.
  - `Step` is one frame. It writes through the context's setter and returns whether it asks for another frame.
  - `SmoothScroll` builds the context and runs the first frame.
  - `RunFrames` runs the chain of frames the host's scheduler drives.

Some inputs become explicit parameters:
- The clock readings (`startTime`, then each frame's `time`). The source reads these from `performance.now`/`Date.now`.
- The easing curve (`ease: real -> real`). Lemmas that need facts about the curve assume only the one they name: `ease(1) == 1`, monotonicity on [0, 1], or eased values in [0, 1].

A frame "scheduled" by `requestAnimationFrame` is the `Scheduled(ctx)` outcome, or `Step`/`RunFrames` returning `true`/`pending`.

Three behaviours of the source, shown by the model:
- **`null` as the first argument.** `shouldBailOut(null)` returns true. Every override then reads `null.left`, so all four entry points throw a TypeError. The model calls this `NullArgument`.
- **An options object as `~~arguments[0]`.** Element `scrollBy` on the non-smooth path does this when `left` is absent. The result is `~~NaN`, which is 0.
- **Element smooth `scrollBy` truncates twice.** It builds `{left: ~~dl + scrollLeft, ...}`, and element `scroll` truncates that value again. From a fractional offset the destination therefore loses the fraction (`ElementScrollBySmoothDropsFraction`). From an integral offset it is exactly the current offset plus the truncated delta (`ElementScrollBySmoothTarget`).

## Model

| member | source | states |
|---|---|---|
| `JsNumbers.Trunc` | src/lib/scrollBy.js:229-231 | the integer part toward zero: never further from 0 than the input, and less than 1 away from it |
| `JsNumbers.ToInt32` | src/lib/scrollBy.js:229-237 | `~~v` is a signed 32-bit integer congruent to the truncation of `v` modulo 2^32 |
| `JsNumbers.ToInt32Unique` | src/lib/scrollBy.js:229-237 | those two properties determine `~~v` uniquely, so they are a complete specification of ToInt32 |
| `JsNumbers.ToInt32InRange` | src/lib/scrollBy.js:179-180 | when the truncation fits in 32 bits, `~~v` is plain truncation toward zero |
| `JsNumbers.ToInt32OfInt32` | src/lib/scrollBy.js:251-252 | `~~n == n` for every signed 32-bit integer `n` |
| `JsNumbers.ToInt32Idempotent` | src/lib/scrollBy.js:275-276 | `~~(~~v) == ~~v`: truncating an already truncated value changes nothing |
| `JsNumbers.ToInt32Opt` | src/lib/scrollBy.js:206-207 | `~~undefined` is 0; a present value inside the 32-bit range truncates toward zero |
| `Resolution.ShouldBailOut` | src/lib/scrollBy.js:53-75 | returns false exactly for an object with `behavior === "smooth"`; raises the TypeError naming the value exactly when `behavior` is present and not `"auto"`, `"instant"` or `"smooth"`; returns true for `null`, non-objects and a missing, `"auto"` or `"instant"` behavior |
| `Resolution.WindowScrollPlan` | src/lib/scrollBy.js:149-182 | window `scroll`/`scrollTo`: it is a no-op exactly when called without arguments; `null` raises the TypeError of reading `null.left`; it raises exactly for `null` or an invalid behavior; it animates exactly when smooth was asked for; it never moves relatively |
| `Resolution.WindowScrollByPlan` | src/lib/scrollBy.js:185-209 | window `scrollBy`: it is a no-op exactly when called without arguments; `null` raises the TypeError of reading `null.left`; same error cases; animates exactly for a smooth request; the non-smooth path is always a relative move |
| `Resolution.ElementScrollPlan` | src/lib/scrollBy.js:212-254 | element `scroll`/`scrollTo`: it is a no-op exactly when called without arguments; `null` raises the TypeError of reading `null.left`; a single bare number without a second argument raises the SyntaxError, and only that call does; it also raises for `null` and invalid behaviors, and animates exactly for a smooth request |
| `Resolution.ScrollByAsScroll` | src/lib/scrollBy.js:274-278 | the object element `scrollBy` hands to element `scroll` has both `left` and `top` present and keeps the caller's `behavior` |
| `Resolution.ElementScrollByPlan` | src/lib/scrollBy.js:257-279 | element `scrollBy`: it is a no-op exactly when called without arguments; `null` raises the TypeError of reading `null.left`; raises exactly for `null` and invalid behaviors; animates exactly for a smooth request; never moves relatively |
| `Resolution.InvalidBehaviorRejected` | src/lib/scrollBy.js:71-74 | with an unrecognised behavior, all four entry points raise the TypeError naming it, whatever the coordinates |
| `Resolution.WindowScrollBySmoothTarget` | src/lib/scrollBy.js:203-208 | smooth window `scrollBy` aims at the current offset plus the truncated delta; a missing delta adds 0 |
| `Resolution.ScrollByTopExample` | src/lib/scrollBy.js:203-208 | `scrollBy({top: 100, behavior: "smooth"})` from (0, 50) animates to (0, 150) |
| `Resolution.WindowScrollByIsScrollToSum` | src/lib/scrollBy.js:203-208 | from an integral offset, smooth `scrollBy(d)` targets exactly what smooth `scroll` to the current offset plus `~~d` targets (relative becomes absolute) |
| `Resolution.ElementScrollBySmoothTarget` | src/lib/scrollBy.js:274-278 | from an integral offset, smooth element `scrollBy` animates to the current offset plus the truncated delta: the second truncation leaves it unchanged |
| `Resolution.ElementScrollBySmoothDestination` | src/lib/scrollBy.js:274-278 | from any offset, smooth element `scrollBy` animates to `~~(~~delta + offset)` on each axis, a missing delta counting as 0 |
| `Resolution.ElementScrollBySmoothDropsFraction` | src/lib/scrollBy.js:274-278 | from offset (10.5, 0), a smooth `scrollBy` with zero deltas animates to (10, 0): the second truncation drops the fraction |
| `Resolution.SmoothScrollDestination` | src/lib/scrollBy.js:176-180 | smooth window (and, at lines 244-253, element) `scroll`/`scrollTo` animate to `~~left`/`~~top`, an absent field keeping the current offset, whatever the second argument: the smooth path never reads it |
| `Resolution.ElementSmoothMatchesInstant` | src/lib/scrollBy.js:225-253 | for element `scroll` called with the options object alone, the same object gives the same coordinates whether it is smooth or not, truncated in both cases |
| `Resolution.WindowSmoothTruncatesInstant` | src/lib/scrollBy.js:157-181 | for window `scroll` called with the options object alone, the smooth destination is ToInt32 of each given coordinate, where the non-smooth path forwards it untruncated; absent fields keep the current offset on both paths |
| `Resolution.ElementScrollInstantCoordinates` | src/lib/scrollBy.js:225-239 | non-smooth element `scroll` takes left from `~~opts.left`, else `~~bareNumber`, else the current `scrollLeft`, and top from `~~opts.top`, else `~~arg1`, else `scrollTop`; every caller-given coordinate comes out a 32-bit integer |
| `Resolution.WindowInstantCoordinates` | src/lib/scrollBy.js:157-170 | for every non-smooth first argument: window `scroll` jumps to `left` or the bare number, else the current `scrollX`, and to `top`, else the second argument, else `scrollY`; `scrollBy` moves by the same values with 0 as the fallback; nothing is truncated |
| `Resolution.WindowInstantDefaults` | src/lib/scrollBy.js:157-170 | the shapes spelled out: `{}` stays in place, `{left: x}` goes to (x, scrollY), `{top: y}` to (scrollX, y), `({left: x}, y)` to (x, y) with `top` taken from the second argument; `scrollBy` falls back to 0 |
| `Resolution.ElementScrollByInstantMoves` | src/lib/scrollBy.js:265-269 | non-smooth element `scrollBy` jumps to the current offset plus `~~left`, else `~~` of the bare number, else 0 for an options object, and plus `~~top`, else `~~` of the second argument (0 when absent), even after an options object; each move is a whole 32-bit number and an axis with no delta stays put |
| `FrameMath.Elapsed` | src/lib/scrollBy.js:88-91 | the elapsed fraction is never above 1; it is exactly 1 from the end of the 300-unit duration on; before that it is the elapsed time over the duration |
| `FrameMath.ArrivedIff` | src/lib/scrollBy.js:96-104 | a frame writes the destination, and so stops rescheduling, exactly when every axis that moves has eased progress 1 |
| `FrameMath.FinalFrameArrives` | src/lib/scrollBy.js:88-104 | with `ease(1) == 1`, a frame at or after the end of the duration writes exactly the destination and schedules nothing more |
| `FrameMath.StationaryArrives` | src/lib/scrollBy.js:96-104 | when the start equals the destination, every frame writes the destination and stops |
| `FrameMath.PositionMonotone` | src/lib/scrollBy.js:88-97 | with an easing curve monotone on [0, 1], later frames never fall behind earlier ones on either axis |
| `FrameMath.PositionBetween` | src/lib/scrollBy.js:94-97 | with easing values in [0, 1], every written offset lies between the start and the destination |
| `Polyfill.Window.OriginalScroll` | src/lib/scrollBy.js:17 | the captured native window scroll sets the offset to the given coordinates |
| `Polyfill.Window.OriginalScrollBy` | src/lib/scrollBy.js:18 | the captured native window scrollBy moves the offset by the given deltas |
| `Polyfill.Window.Scroll` | src/lib/scrollBy.js:149-182 | the new window offset and the outcome are those of `WindowScrollPlan`: nothing changes on an error or without arguments, one jump on the non-smooth path, and on the smooth path the first frame's offset with another frame requested unless it arrived |
| `Polyfill.Window.ScrollBy` | src/lib/scrollBy.js:185-209 | the same, against `WindowScrollByPlan`; the non-smooth path adds the deltas to the offset |
| `Polyfill.Element.ScrollElement` | src/lib/scrollBy.js:32-35 | `scrollElement` sets exactly `scrollLeft` and `scrollTop` to the given values |
| `Polyfill.Element.Scroll` | src/lib/scrollBy.js:212-254 | the new element offset and the outcome are those of `ElementScrollPlan`; errors happen before any write |
| `Polyfill.Element.ScrollBy` | src/lib/scrollBy.js:257-279 | the new element offset and the outcome are those of `ElementScrollByPlan`; the smooth path goes through the patched element `scroll` |
| `Polyfill.Step` | src/lib/scrollBy.js:83-105 | a frame writes the interpolated offset of the clamped, eased elapsed fraction. It asks for another frame exactly when that offset is not the destination. With `ease(1) == 1`, a frame at or after the duration writes the destination and asks for nothing more |
| `Polyfill.SmoothScroll` | src/lib/scrollBy.js:115-145 | the context starts from the target's current offset and its first frame runs at once; a destination equal to the current offset gives one write of that offset and no further frame |
| `Polyfill.RunFrames` | src/lib/scrollBy.js:99-104 | the frame chain stops at the first frame that arrives. Every earlier frame asked for another, and the chain is still pending exactly when its last frame did not arrive. With `ease(1) == 1`, the chain has stopped at the destination by the first frame taken at or after the duration |

## Left out

- The half-cosine easing `ease` (lines 43-45) is floating point. It is a parameter of the model. Lemmas assume only the facts they name: `ease(1) == 1`, monotonicity on [0, 1], or values in [0, 1].
- Numbers are exact reals. There is no NaN, no Infinity and no double rounding, so the interpolation `start + (dest - start) * value` is exact.
- `FinalFrameArrives`, `Step` and `RunFrames` promise that the chain stops at the first frame at or after the duration. In the source that holds only when the double sum `start + (dest - start) * 1` is exactly `dest`. It is for integer endpoints, but not for every pair: from a negative fractional start such as -30.118 towards 493 the sum rounds to 493.00000000000006, the test of line 102 stays true, and the source keeps requesting frames. The model does not capture that non-termination.
- JavaScript values outside the tagged union are not modelled: string arguments, non-number `left`/`top`/second arguments, and non-string `behavior` values.
- `requestAnimationFrame` and the clock (`performance.now`/`Date.now` and their feature detection, lines 23, 84, 103) are replaced by explicit times. A requested frame is a returned flag or outcome.
- Installation into `window` and `Element.prototype` and the capture of the original methods (lines 12, 16-20) are not modelled. The entry points are class methods, and the captured natives are the methods `OriginalScroll`, `OriginalScrollBy` and `ScrollElement`.
- The native primitives only assign or add offsets. Browser clamping to the scrollable range is not modelled.
- Line 19 prefers the native `Element.prototype.scroll` over `scrollElement`. The model always uses `scrollElement`, which has the same effect on the two offsets.
- `smoothScroll`'s `el === d.body` test and the `scrollX || pageXOffset` fallback (lines 123-126) are not modelled. A window target is the window and has one offset pair. Element `scroll` on `document.body` would animate the window in the source.
- Overlapping animation chains on the same target are not modelled. Their interaction comes from how the host interleaves frames.
