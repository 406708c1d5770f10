/** The patched scroll entry points and the animation engine.

    `Window` and `Element` hold the scroll offsets the polyfill reads and
    writes. Each entry point reads its arguments through the plan functions of
    `Resolution` and then acts: it raises, returns, calls the native scroll
    primitive once, or starts a smooth scroll. A smooth scroll builds a scroll
    context and runs its first frame at once; every later frame is a call of
    `Step` that the host's frame scheduler makes when the previous frame asked
    for one. The time source and the easing curve are parameters. */
module Polyfill {
  import opened JsNumbers
  import opened Resolution
  import opened FrameMath

  /** The browser window's scroll offset (`scrollX`/`pageXOffset`,
      `scrollY`/`pageYOffset`). */
  class Window {
    var scrollX: real
    var scrollY: real

    constructor (x: real, y: real)
      ensures scrollX == x && scrollY == y
    {
      scrollX, scrollY := x, y;
    }

    /** The native `window.scroll` captured before patching: jump to (x, y). */
    method OriginalScroll(x: real, y: real)
      modifies this
      ensures scrollX == x && scrollY == y
    {
      scrollX, scrollY := x, y;
    }

    /** The native `window.scrollBy` captured before patching: move by (dx, dy). */
    method OriginalScrollBy(dx: real, dy: real)
      modifies this
      ensures scrollX == old(scrollX) + dx && scrollY == old(scrollY) + dy
    {
      scrollX, scrollY := scrollX + dx, scrollY + dy;
    }

    /** Carries out a plan against the window: the native primitives for the
        non-smooth path, the animation engine for the smooth one. */
    method Perform(plan: Result<Action>, startTime: real, frameTime: real, ease: real -> real)
      returns (out: Outcome)
      modifies this
      ensures Carried(plan, WindowTarget(this), old((scrollX, scrollY)), (scrollX, scrollY),
                      startTime, frameTime, ease, out)
    {
      match plan
      case Err(e) =>
        out := Threw(e);
      case Ok(NoOp) =>
        out := Done;
      case Ok(Jump(x, y)) =>
        OriginalScroll(x, y);
        out := Done;
      case Ok(JumpBy(dx, dy)) =>
        OriginalScrollBy(dx, dy);
        out := Done;
      case Ok(Smooth(x, y)) =>
        out := SmoothScroll(WindowTarget(this), x, y, startTime, frameTime, ease);
    }

    /** The patched `window.scroll`, which is also `window.scrollTo`.
        `startTime` and `frameTime` are the two readings of the clock a smooth
        scroll takes: when the context is built and when its first frame runs. */
    method Scroll(first: Arg, second: Option<real>, startTime: real, frameTime: real, ease: real -> real)
      returns (out: Outcome)
      modifies this
      ensures Carried(WindowScrollPlan(first, second, old(scrollX), old(scrollY)), WindowTarget(this),
                      old((scrollX, scrollY)), (scrollX, scrollY), startTime, frameTime, ease, out)
    {
      out := Perform(WindowScrollPlan(first, second, scrollX, scrollY), startTime, frameTime, ease);
    }

    /** The patched `window.scrollBy`. */
    method ScrollBy(first: Arg, second: Option<real>, startTime: real, frameTime: real, ease: real -> real)
      returns (out: Outcome)
      modifies this
      ensures Carried(WindowScrollByPlan(first, second, old(scrollX), old(scrollY)), WindowTarget(this),
                      old((scrollX, scrollY)), (scrollX, scrollY), startTime, frameTime, ease, out)
    {
      out := Perform(WindowScrollByPlan(first, second, scrollX, scrollY), startTime, frameTime, ease);
    }
  }

  /** A scrollable element's offset (`scrollLeft`, `scrollTop`). */
  class Element {
    var scrollLeft: real
    var scrollTop: real

    constructor (left: real, top: real)
      ensures scrollLeft == left && scrollTop == top
    {
      scrollLeft, scrollTop := left, top;
    }

    /** `scrollElement`: the element setter, which assigns both offsets and
        nothing else. It is also the native element scroll the non-smooth path
        forwards to. */
    method ScrollElement(x: real, y: real)
      modifies this
      ensures scrollLeft == x && scrollTop == y
    {
      scrollLeft, scrollTop := x, y;
    }

    /** Carries out an element plan (element plans never move relatively). */
    method Perform(plan: Result<Action>, startTime: real, frameTime: real, ease: real -> real)
      returns (out: Outcome)
      requires plan.Ok? ==> !plan.value.JumpBy?
      modifies this
      ensures Carried(plan, ElementTarget(this), old((scrollLeft, scrollTop)), (scrollLeft, scrollTop),
                      startTime, frameTime, ease, out)
    {
      match plan
      case Err(e) =>
        out := Threw(e);
      case Ok(NoOp) =>
        out := Done;
      case Ok(Jump(x, y)) =>
        ScrollElement(x, y);
        out := Done;
      case Ok(Smooth(x, y)) =>
        out := SmoothScroll(ElementTarget(this), x, y, startTime, frameTime, ease);
    }

    /** The patched `element.scroll`, which is also `element.scrollTo`. */
    method Scroll(first: Arg, second: Option<real>, startTime: real, frameTime: real, ease: real -> real)
      returns (out: Outcome)
      modifies this
      ensures Carried(ElementScrollPlan(first, second, old(scrollLeft), old(scrollTop)), ElementTarget(this),
                      old((scrollLeft, scrollTop)), (scrollLeft, scrollTop), startTime, frameTime, ease, out)
    {
      out := Perform(ElementScrollPlan(first, second, scrollLeft, scrollTop), startTime, frameTime, ease);
    }

    /** The patched `element.scrollBy`. The smooth path calls the patched
        `element.scroll` with the destination made absolute. */
    method ScrollBy(first: Arg, second: Option<real>, startTime: real, frameTime: real, ease: real -> real)
      returns (out: Outcome)
      modifies this
      ensures Carried(ElementScrollByPlan(first, second, old(scrollLeft), old(scrollTop)), ElementTarget(this),
                      old((scrollLeft, scrollTop)), (scrollLeft, scrollTop), startTime, frameTime, ease, out)
    {
      if IsSmoothRequest(first) {
        out := Scroll(ScrollByAsScroll(first, scrollLeft, scrollTop), None, startTime, frameTime, ease);
      } else {
        out := Perform(ElementScrollByPlan(first, second, scrollLeft, scrollTop), startTime, frameTime, ease);
      }
    }
  }

  /** What a scroll context scrolls, and so which setter its frames call: the
      window's native scroll, or the element's `scrollElement`. */
  datatype Target = WindowTarget(win: Window) | ElementTarget(el: Element) {
    function Obj(): (o: object) {
      match this
      case WindowTarget(w) => w
      case ElementTarget(e) => e
    }

    function Position(): (p: (real, real))
      reads Obj()
    {
      match this
      case WindowTarget(w) => (w.scrollX, w.scrollY)
      case ElementTarget(e) => (e.scrollLeft, e.scrollTop)
    }
  }

  /** A scroll context: the target together with the start time, start offset
      and destination, all fixed when the animation starts. */
  datatype Context = Context(target: Target, frame: Frame)

  /** How a call to an entry point ends. */
  datatype Outcome =
    | Done                     // returned; no frame is pending
    | Scheduled(ctx: Context)  // returned with a frame for `ctx` requested
    | Threw(error: ScrollError) // raised before changing anything

  /** An entry point's effect, given its plan: the offset before and after the
      call and how the call ended. */
  ghost predicate Carried(plan: Result<Action>, target: Target, before: (real, real), after: (real, real),
                          startTime: real, frameTime: real, ease: real -> real, out: Outcome)
  {
    match plan
    case Err(e) => out == Threw(e) && after == before
    case Ok(NoOp) => out == Done && after == before
    case Ok(Jump(x, y)) => out == Done && after == (x, y)
    case Ok(JumpBy(dx, dy)) => out == Done && after == (before.0 + dx, before.1 + dy)
    case Ok(Smooth(x, y)) =>
      var f := Frame(startTime, before.0, before.1, x, y);
      && after == FrameMath.Position(f, frameTime, ease)
      && out == if Arrived(f, frameTime, ease) then Done else Scheduled(Context(target, f))
  }

  /** `step`: one animation frame taken at `time`. It writes the interpolated
      offset through the context's setter and asks for another frame unless
      the written offset is the destination. */
  method Step(ctx: Context, time: real, ease: real -> real) returns (again: bool)
    modifies ctx.target.Obj()
    ensures ctx.target.Position() == FrameMath.Position(ctx.frame, time, ease)
    ensures again <==> !Arrived(ctx.frame, time, ease)
    ensures ease(1.0) == 1.0 && time >= ctx.frame.startTime + SCROLL_TIME ==>
              !again && ctx.target.Position() == (ctx.frame.x, ctx.frame.y)
  {
    var f := ctx.frame;
    var elapsed := (time - f.startTime) / SCROLL_TIME;
    elapsed := if elapsed > 1.0 then 1.0 else elapsed;
    var value := ease(elapsed);
    var currentX := f.startX + (f.x - f.startX) * value;
    var currentY := f.startY + (f.y - f.startY) * value;
    assert elapsed == Elapsed(f, time);
    assert currentX == Lerp(f.startX, f.x, value) && currentY == Lerp(f.startY, f.y, value);
    assert (currentX, currentY) == FrameMath.Position(f, time, ease);
    match ctx.target {
      case WindowTarget(w) => w.OriginalScroll(currentX, currentY);
      case ElementTarget(e) => e.ScrollElement(currentX, currentY);
    }
    again := currentX != f.x || currentY != f.y;
    if ease(1.0) == 1.0 && time >= f.startTime + SCROLL_TIME {
      FinalFrameArrives(f, time, ease);
    }
  }

  /** `smoothScroll`: builds the context from the target's current offset and
      runs the first frame at `frameTime`. */
  method SmoothScroll(target: Target, x: real, y: real, startTime: real, frameTime: real, ease: real -> real)
    returns (out: Outcome)
    modifies target.Obj()
    ensures var f := Frame(startTime, old(target.Position()).0, old(target.Position()).1, x, y);
      && target.Position() == FrameMath.Position(f, frameTime, ease)
      && out == if Arrived(f, frameTime, ease) then Done else Scheduled(Context(target, f))
    ensures (x, y) == old(target.Position()) ==> out == Done && target.Position() == (x, y)
  {
    var start := target.Position();
    var ctx := Context(target, Frame(startTime, start.0, start.1, x, y));
    if (x, y) == start {
      StationaryArrives(ctx.frame, frameTime, ease);
    }
    var again := Step(ctx, frameTime, ease);
    out := if again then Scheduled(ctx) else Done;
  }

  /** The chain of frames after the first: the host calls `Step` at each of
      `times` in turn for as long as the previous frame asked for another.
      `frames` is how many frames ran; `pending` says the last one still asked
      for another. */
  method RunFrames(ctx: Context, times: seq<real>, ease: real -> real) returns (frames: nat, pending: bool)
    modifies ctx.target.Obj()
    ensures frames <= |times|
    ensures pending ==> frames == |times|
    ensures !pending ==> 0 < frames && Arrived(ctx.frame, times[frames - 1], ease)
    ensures 0 < frames ==> (pending <==> !Arrived(ctx.frame, times[frames - 1], ease))
    ensures forall i :: 0 <= i < frames - 1 ==> !Arrived(ctx.frame, times[i], ease)
    ensures 0 < frames ==> ctx.target.Position() == FrameMath.Position(ctx.frame, times[frames - 1], ease)
    ensures frames == 0 ==> ctx.target.Position() == old(ctx.target.Position())
    ensures ease(1.0) == 1.0 ==>
              forall k :: 0 <= k < |times| && times[k] >= ctx.frame.startTime + SCROLL_TIME ==>
                !pending && frames <= k + 1 && ctx.target.Position() == (ctx.frame.x, ctx.frame.y)
  {
    frames, pending := 0, true;
    while frames < |times| && pending
      invariant frames <= |times|
      invariant forall i :: 0 <= i < frames - 1 ==> !Arrived(ctx.frame, times[i], ease)
      invariant 0 < frames ==> (pending <==> !Arrived(ctx.frame, times[frames - 1], ease))
      invariant frames == 0 ==> pending
      invariant 0 < frames ==> ctx.target.Position() == FrameMath.Position(ctx.frame, times[frames - 1], ease)
      invariant frames == 0 ==> ctx.target.Position() == old(ctx.target.Position())
    {
      pending := Step(ctx, times[frames], ease);
      frames := frames + 1;
    }
    if ease(1.0) == 1.0 {
      forall k | 0 <= k < |times| && times[k] >= ctx.frame.startTime + SCROLL_TIME
        ensures !pending && frames <= k + 1 && ctx.target.Position() == (ctx.frame.x, ctx.frame.y)
      {
        FinalFrameArrives(ctx.frame, times[k], ease);
      }
    }
  }
}
