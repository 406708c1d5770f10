/** How the four patched entry points read their arguments.

    Every entry point takes a first argument (an options dictionary
    `{left?, top?, behavior?}`, a bare number, `null`, or nothing) and an
    optional second number. From these and the target's current offset it
    decides one of four things: do nothing, raise an error, forward
    coordinates to the native scroll primitive, or start a smooth animation
    towards a destination. The decision is a pure function of its inputs and
    is given here as one "plan" function per entry point. */
module Resolution {
  import opened JsNumbers

  /** The errors an entry point raises synchronously. */
  datatype ScrollError =
    | InvalidBehavior(value: string)  // TypeError naming the unsupported `behavior`
    | NotConvertible                  // SyntaxError "Value could not be converted"
    | NullArgument                    // TypeError from reading `left` of `null`

  datatype Result<+T> = Ok(value: T) | Err(error: ScrollError)

  /** The first argument of a call. `Undefined` is a call with no arguments. */
  datatype Arg =
    | Undefined
    | Null
    | Number(n: real)
    | Options(left: Option<real>, top: Option<real>, behavior: Option<string>)
  {
    /** `typeof arg === "object"` (true of `null` as well). */
    predicate IsObject() {
      Null? || Options?
    }

    /** `arg.left`: a bare number has no `left` property. */
    function Left(): (l: Option<real>)
      requires !Null?
    {
      if Options? then left else None
    }

    /** `arg.top`. */
    function Top(): (t: Option<real>)
      requires !Null?
    {
      if Options? then top else None
    }

    /** `~~arg`: a number is converted; an options object is NaN, hence 0. */
    function ToInt32Value(): (r: int)
      requires Number? || Options?
    {
      if Number? then ToInt32(n) else 0
    }
  }

  /** What an entry point does once its arguments are read. */
  datatype Action =
    | NoOp                      // return without effect
    | Jump(x: real, y: real)    // call the native absolute scroll with (x, y)
    | JumpBy(dx: real, dy: real) // call the native relative scroll with (dx, dy)
    | Smooth(x: real, y: real)  // animate from the current offset to (x, y)

  /** The recognised values of `behavior`. */
  predicate IsKnownBehavior(b: string) {
    b == "auto" || b == "instant" || b == "smooth"
  }

  /** An options object asking for smooth behaviour. */
  predicate IsSmoothRequest(a: Arg) {
    a.Options? && a.behavior == Some("smooth")
  }

  /** An options object whose `behavior` is present but not recognised. */
  predicate HasInvalidBehavior(a: Arg) {
    a.Options? && a.behavior.Some? && !IsKnownBehavior(a.behavior.value)
  }

  /** `shouldBailOut`: `Ok(true)` when the non-smooth path applies, `Ok(false)`
      when smooth scrolling was asked for, and the TypeError otherwise. */
  function ShouldBailOut(a: Arg): (r: Result<bool>)
    ensures r == Ok(false) <==> IsSmoothRequest(a)
    ensures r.Err? <==> HasInvalidBehavior(a)
    ensures r.Ok? <==> !HasInvalidBehavior(a)
    ensures r.Err? ==> r.error == InvalidBehavior(a.behavior.value)
    ensures !a.Options? || a.behavior.None? ==> r == Ok(true)
  {
    if a.Null? || !a.IsObject() || a.behavior.None?
       || a.behavior == Some("auto") || a.behavior == Some("instant")
    then Ok(true)
    else if a.IsObject() && a.behavior == Some("smooth") then Ok(false)
    else Err(InvalidBehavior(a.behavior.value))
  }

  /** `window.scroll` / `window.scrollTo`. `scrollX`, `scrollY` are the window's
      current offset. */
  function WindowScrollPlan(first: Arg, second: Option<real>, scrollX: real, scrollY: real): (r: Result<Action>)
    ensures r == Ok(NoOp) <==> first.Undefined?
    ensures first.Null? ==> r == Err(NullArgument)
    ensures r.Err? <==> first.Null? || HasInvalidBehavior(first)
    ensures r.Ok? && r.value.Smooth? <==> IsSmoothRequest(first)
    ensures r.Ok? ==> !r.value.JumpBy?
  {
    if first.Undefined? then Ok(NoOp)
    else match ShouldBailOut(first)
      case Err(e) => Err(e)
      case Ok(true) =>
        if first.Null? then Err(NullArgument)
        else Ok(Jump(
          if first.Left().Some? then first.Left().value
          else if !first.IsObject() then first.n
          else scrollX,
          if first.Top().Some? then first.Top().value
          else if second.Some? then second.value
          else scrollY))
      case Ok(false) =>
        Ok(Smooth(
          if first.left.Some? then ToInt32(first.left.value) as real else scrollX,
          if first.top.Some? then ToInt32(first.top.value) as real else scrollY))
  }

  /** `window.scrollBy`. */
  function WindowScrollByPlan(first: Arg, second: Option<real>, scrollX: real, scrollY: real): (r: Result<Action>)
    ensures r == Ok(NoOp) <==> first.Undefined?
    ensures first.Null? ==> r == Err(NullArgument)
    ensures r.Err? <==> first.Null? || HasInvalidBehavior(first)
    ensures r.Ok? && r.value.Smooth? <==> IsSmoothRequest(first)
    ensures r.Ok? ==> !r.value.Jump?
  {
    if first.Undefined? then Ok(NoOp)
    else match ShouldBailOut(first)
      case Err(e) => Err(e)
      case Ok(true) =>
        if first.Null? then Err(NullArgument)
        else Ok(JumpBy(
          if first.Left().Some? then first.Left().value
          else if !first.IsObject() then first.n
          else 0.0,
          if first.Top().Some? then first.Top().value
          else if second.Some? then second.value
          else 0.0))
      case Ok(false) =>
        Ok(Smooth(
          ToInt32Opt(first.left) as real + scrollX,
          ToInt32Opt(first.top) as real + scrollY))
  }

  /** `element.scroll` / `element.scrollTo`. `scrollLeft`, `scrollTop` are the
      element's current offset. */
  function ElementScrollPlan(first: Arg, second: Option<real>, scrollLeft: real, scrollTop: real): (r: Result<Action>)
    ensures r == Ok(NoOp) <==> first.Undefined?
    ensures first.Null? ==> r == Err(NullArgument)
    ensures r == Err(NotConvertible) <==> first.Number? && second.None?
    ensures r.Err? <==> first.Null? || HasInvalidBehavior(first) || (first.Number? && second.None?)
    ensures r.Ok? && r.value.Smooth? <==> IsSmoothRequest(first)
    ensures r.Ok? ==> !r.value.JumpBy?
  {
    if first.Undefined? then Ok(NoOp)
    else match ShouldBailOut(first)
      case Err(e) => Err(e)
      case Ok(true) =>
        if first.Number? && second.None? then Err(NotConvertible)
        else if first.Null? then Err(NullArgument)
        else Ok(Jump(
          if first.Left().Some? then ToInt32(first.Left().value) as real
          else if !first.IsObject() then ToInt32(first.n) as real
          else scrollLeft,
          if first.Top().Some? then ToInt32(first.Top().value) as real
          else if second.Some? then ToInt32(second.value) as real
          else scrollTop))
      case Ok(false) =>
        Ok(Smooth(
          if first.left.None? then scrollLeft else ToInt32(first.left.value) as real,
          if first.top.None? then scrollTop else ToInt32(first.top.value) as real))
  }

  /** The options object `element.scrollBy` passes on to `element.scroll` on
      the smooth path: the relative request made absolute. */
  function ScrollByAsScroll(first: Arg, scrollLeft: real, scrollTop: real): (a: Arg)
    requires first.Options?
    ensures a.Options? && a.left.Some? && a.top.Some? && a.behavior == first.behavior
  {
    Options(
      Some(ToInt32Opt(first.left) as real + scrollLeft),
      Some(ToInt32Opt(first.top) as real + scrollTop),
      first.behavior)
  }

  /** `element.scrollBy`. On the smooth path it is `element.scroll` called with
      the options object `ScrollByAsScroll` builds. */
  function ElementScrollByPlan(first: Arg, second: Option<real>, scrollLeft: real, scrollTop: real): (r: Result<Action>)
    ensures r == Ok(NoOp) <==> first.Undefined?
    ensures first.Null? ==> r == Err(NullArgument)
    ensures r.Err? <==> first.Null? || HasInvalidBehavior(first)
    ensures r.Ok? && r.value.Smooth? <==> IsSmoothRequest(first)
    ensures r.Ok? ==> !r.value.JumpBy?
  {
    if first.Undefined? then Ok(NoOp)
    else match ShouldBailOut(first)
      case Err(e) => Err(e)
      case Ok(true) =>
        if first.Null? then Err(NullArgument)
        else Ok(Jump(
          if first.Left().Some? then ToInt32(first.Left().value) as real + scrollLeft
          else first.ToInt32Value() as real + scrollLeft,
          if first.Top().Some? then ToInt32(first.Top().value) as real + scrollTop
          else ToInt32Opt(second) as real + scrollTop))
      case Ok(false) =>
        ElementScrollPlan(ScrollByAsScroll(first, scrollLeft, scrollTop), None, scrollLeft, scrollTop)
  }

  // ---------------------------------------------------------------------------
  // Properties of the plans

  /** A behaviour that is neither "auto", "instant" nor "smooth" makes all four
      entry points raise the TypeError naming it, whatever the coordinates. */
  lemma InvalidBehaviorRejected(left: Option<real>, top: Option<real>, b: string, second: Option<real>, cx: real, cy: real)
    requires !IsKnownBehavior(b)
    ensures WindowScrollPlan(Options(left, top, Some(b)), second, cx, cy) == Err(InvalidBehavior(b))
    ensures WindowScrollByPlan(Options(left, top, Some(b)), second, cx, cy) == Err(InvalidBehavior(b))
    ensures ElementScrollPlan(Options(left, top, Some(b)), second, cx, cy) == Err(InvalidBehavior(b))
    ensures ElementScrollByPlan(Options(left, top, Some(b)), second, cx, cy) == Err(InvalidBehavior(b))
  {
  }

  /** The integer part of an optional delta, `undefined` counting as 0. */
  function TruncOr0(v: Option<real>): (r: int) {
    if v.Some? then Trunc(v.value) else 0
  }

  /** Smooth `window.scrollBy` aims at the current offset plus the integer part
      of each delta, a missing delta adding nothing. */
  lemma {:induction false} WindowScrollBySmoothTarget(left: Option<real>, top: Option<real>, second: Option<real>, scrollX: real, scrollY: real)
    requires left.Some? ==> InInt32(Trunc(left.value))
    requires top.Some? ==> InInt32(Trunc(top.value))
    ensures WindowScrollByPlan(Options(left, top, Some("smooth")), second, scrollX, scrollY)
         == Ok(Smooth(TruncOr0(left) as real + scrollX, TruncOr0(top) as real + scrollY))
  {
    if left.Some? { ToInt32InRange(left.value); }
    if top.Some? { ToInt32InRange(top.value); }
  }

  /** `scrollBy({top: 100, behavior: "smooth"})` from window offset (0, 50)
      animates to (0, 150). */
  lemma ScrollByTopExample()
    ensures WindowScrollByPlan(Options(None, Some(100.0), Some("smooth")), None, 0.0, 50.0)
         == Ok(Smooth(0.0, 150.0))
  {
    WindowScrollBySmoothTarget(None, Some(100.0), None, 0.0, 50.0);
  }

  /** Relative becomes absolute: from an integral window offset, smooth
      `scrollBy(d)` animates to exactly where smooth `scroll` to the current
      offset plus `~~d` animates. */
  lemma {:induction false} WindowScrollByIsScrollToSum(left: Option<real>, top: Option<real>, second: Option<real>, scrollX: int, scrollY: int)
    requires InInt32(ToInt32Opt(left) + scrollX) && InInt32(ToInt32Opt(top) + scrollY)
    ensures WindowScrollByPlan(Options(left, top, Some("smooth")), second, scrollX as real, scrollY as real)
         == WindowScrollPlan(
              Options(Some((ToInt32Opt(left) + scrollX) as real), Some((ToInt32Opt(top) + scrollY) as real), Some("smooth")),
              None, scrollX as real, scrollY as real)
  {
    ToInt32OfInt32(ToInt32Opt(left) + scrollX);
    ToInt32OfInt32(ToInt32Opt(top) + scrollY);
  }

  /** Smooth `element.scrollBy` from an integral offset animates to the current
      offset plus the truncated delta: re-truncating the integral destination
      inside `element.scroll` leaves it unchanged. */
  lemma {:induction false} ElementScrollBySmoothTarget(left: Option<real>, top: Option<real>, second: Option<real>, scrollLeft: int, scrollTop: int)
    requires InInt32(ToInt32Opt(left) + scrollLeft) && InInt32(ToInt32Opt(top) + scrollTop)
    ensures ElementScrollByPlan(Options(left, top, Some("smooth")), second, scrollLeft as real, scrollTop as real)
         == Ok(Smooth((ToInt32Opt(left) + scrollLeft) as real, (ToInt32Opt(top) + scrollTop) as real))
  {
    ToInt32OfInt32(ToInt32Opt(left) + scrollLeft);
    ToInt32OfInt32(ToInt32Opt(top) + scrollTop);
  }

  /** Smooth `element.scrollBy` from any offset animates to ToInt32 of the
      current offset plus the truncated delta: the destination is truncated a
      second time inside `element.scroll`. */
  lemma ElementScrollBySmoothDestination(left: Option<real>, top: Option<real>, second: Option<real>, scrollLeft: real, scrollTop: real)
    ensures ElementScrollByPlan(Options(left, top, Some("smooth")), second, scrollLeft, scrollTop)
         == Ok(Smooth(ToInt32(ToInt32Opt(left) as real + scrollLeft) as real,
                      ToInt32(ToInt32Opt(top) as real + scrollTop) as real))
  {
  }

  /** From a fractional offset the re-truncation inside `element.scroll` drops
      the fraction: a smooth `scrollBy` with zero deltas from (10.5, 0) animates
      to (10, 0), not to where the element already is. */
  lemma ElementScrollBySmoothDropsFraction()
    ensures ElementScrollByPlan(Options(Some(0.0), Some(0.0), Some("smooth")), None, 10.5, 0.0)
         == Ok(Smooth(10.0, 0.0))
  {
    ToInt32OfInt32(0);
    ToInt32OfInt32(10);
    assert Trunc(10.5) == 10;
    ToInt32InRange(10.5);
  }

  /** Smooth `scroll`/`scrollTo` on the window and on an element animates to
      the truncated `left`/`top`, an absent field keeping the current offset;
      the second argument is never read on the smooth path. */
  lemma SmoothScrollDestination(first: Arg, second: Option<real>, cx: real, cy: real)
    requires IsSmoothRequest(first)
    ensures WindowScrollPlan(first, second, cx, cy)
         == Ok(Smooth(if first.left.Some? then ToInt32(first.left.value) as real else cx,
                      if first.top.Some? then ToInt32(first.top.value) as real else cy))
    ensures ElementScrollPlan(first, second, cx, cy)
         == Ok(Smooth(if first.left.Some? then ToInt32(first.left.value) as real else cx,
                      if first.top.Some? then ToInt32(first.top.value) as real else cy))
  {
  }

  /** Truncation law for elements: with the same options object, the smooth
      path animates to exactly the coordinates the non-smooth path jumps to. */
  lemma ElementSmoothMatchesInstant(left: Option<real>, top: Option<real>, b: Option<string>, scrollLeft: real, scrollTop: real)
    requires b.Some? ==> b.value == "auto" || b.value == "instant"
    ensures var smooth := ElementScrollPlan(Options(left, top, Some("smooth")), None, scrollLeft, scrollTop);
            var instant := ElementScrollPlan(Options(left, top, b), None, scrollLeft, scrollTop);
            smooth.Ok? && smooth.value.Smooth? && instant.Ok? && instant.value.Jump?
            && smooth.value.x == instant.value.x && smooth.value.y == instant.value.y
  {
  }

  /** Truncation law for the window: the smooth path animates to the integer
      parts of the given `left`/`top` (ToInt32), where the non-smooth path
      forwards them untruncated; absent fields keep the current offset on both. */
  lemma WindowSmoothTruncatesInstant(left: Option<real>, top: Option<real>, b: Option<string>, scrollX: real, scrollY: real)
    requires b.Some? ==> b.value == "auto" || b.value == "instant"
    ensures var smooth := WindowScrollPlan(Options(left, top, Some("smooth")), None, scrollX, scrollY);
            var instant := WindowScrollPlan(Options(left, top, b), None, scrollX, scrollY);
            smooth.Ok? && smooth.value.Smooth? && instant.Ok? && instant.value.Jump?
            && smooth.value.x == (if left.Some? then ToInt32(instant.value.x) as real else instant.value.x)
            && smooth.value.y == (if top.Some? then ToInt32(instant.value.y) as real else instant.value.y)
  {
  }

  /** Non-smooth `element.scroll` truncates every coordinate the caller gives
      (a `left`/`top` field first, else the bare numbers) and keeps the current
      offset on an axis the caller leaves out. */
  lemma ElementScrollInstantCoordinates(first: Arg, second: Option<real>, scrollLeft: real, scrollTop: real)
    requires ElementScrollPlan(first, second, scrollLeft, scrollTop).Ok?
    requires !first.Undefined? && !IsSmoothRequest(first)
    ensures var j := ElementScrollPlan(first, second, scrollLeft, scrollTop).value;
      && j.Jump?
      && j.x == (if first.Number? then ToInt32(first.n) as real
                 else if first.left.Some? then ToInt32(first.left.value) as real
                 else scrollLeft)
      && j.y == (if first.Options? && first.top.Some? then ToInt32(first.top.value) as real
                 else if second.Some? then ToInt32(second.value) as real
                 else scrollTop)
      && ((first.Number? || first.left.Some?) ==> IsInteger(j.x) && InInt32(j.x.Floor))
      && (((first.Options? && first.top.Some?) || second.Some?) ==> IsInteger(j.y) && InInt32(j.y.Floor))
  {
  }

  /** Non-smooth `window.scroll` forwards caller values untruncated, with the
      current offset for an absent field; non-smooth `window.scrollBy` uses 0
      instead, so an options object without coordinates leaves the window
      where it is either way. With only `left` given, `top` comes from the
      second argument when there is one. */
  lemma WindowInstantDefaults(b: Option<string>, scrollX: real, scrollY: real, x: real, y: real)
    requires b.Some? ==> b.value == "auto" || b.value == "instant"
    ensures WindowScrollPlan(Options(None, None, b), None, scrollX, scrollY) == Ok(Jump(scrollX, scrollY))
    ensures WindowScrollByPlan(Options(None, None, b), None, scrollX, scrollY) == Ok(JumpBy(0.0, 0.0))
    ensures WindowScrollPlan(Options(Some(x), Some(y), b), None, scrollX, scrollY) == Ok(Jump(x, y))
    ensures WindowScrollByPlan(Options(Some(x), Some(y), b), None, scrollX, scrollY) == Ok(JumpBy(x, y))
    ensures WindowScrollPlan(Options(Some(x), None, b), None, scrollX, scrollY) == Ok(Jump(x, scrollY))
    ensures WindowScrollPlan(Options(None, Some(y), b), None, scrollX, scrollY) == Ok(Jump(scrollX, y))
    ensures WindowScrollPlan(Options(Some(x), None, b), Some(y), scrollX, scrollY) == Ok(Jump(x, y))
    ensures WindowScrollByPlan(Options(Some(x), None, b), Some(y), scrollX, scrollY) == Ok(JumpBy(x, y))
    ensures WindowScrollPlan(Number(x), Some(y), scrollX, scrollY) == Ok(Jump(x, y))
    ensures WindowScrollByPlan(Number(x), None, scrollX, scrollY) == Ok(JumpBy(x, 0.0))
  {
  }

  /** Non-smooth window entry points read each axis field by field: `left`
      (or the bare number), else the current offset for `scroll` and 0 for
      `scrollBy`; `top`, else the second argument (even after an options
      object), else the current offset or 0. Nothing is truncated. */
  lemma WindowInstantCoordinates(first: Arg, second: Option<real>, scrollX: real, scrollY: real)
    requires !first.Undefined? && !first.Null? && ShouldBailOut(first) == Ok(true)
    ensures WindowScrollPlan(first, second, scrollX, scrollY) == Ok(Jump(
              if first.Number? then first.n else if first.left.Some? then first.left.value else scrollX,
              if first.Options? && first.top.Some? then first.top.value
              else if second.Some? then second.value else scrollY))
    ensures WindowScrollByPlan(first, second, scrollX, scrollY) == Ok(JumpBy(
              if first.Number? then first.n else if first.left.Some? then first.left.value else 0.0,
              if first.Options? && first.top.Some? then first.top.value
              else if second.Some? then second.value else 0.0))
  {
  }

  /** Non-smooth `element.scrollBy` moves each axis by a whole 32-bit number of
      pixels from the current offset: `~~left` (or `~~` of the bare number, 0
      for an options object without `left`), and `~~top`, else `~~` of the
      second argument (0 when absent), even after an options object. An axis
      without a delta does not move. */
  lemma ElementScrollByInstantMoves(first: Arg, second: Option<real>, scrollLeft: real, scrollTop: real)
    requires !first.Undefined? && !first.Null? && ShouldBailOut(first) == Ok(true)
    ensures var r := ElementScrollByPlan(first, second, scrollLeft, scrollTop);
      && r.Ok? && r.value.Jump?
      && IsInteger(r.value.x - scrollLeft) && InInt32((r.value.x - scrollLeft).Floor)
      && IsInteger(r.value.y - scrollTop) && InInt32((r.value.y - scrollTop).Floor)
      && (first.Options? && first.left.None? ==> r.value.x == scrollLeft)
      && (first.Options? && first.top.None? && second.None? ==> r.value.y == scrollTop)
    ensures ElementScrollByPlan(first, second, scrollLeft, scrollTop) == Ok(Jump(
              (if first.Number? then ToInt32(first.n) else ToInt32Opt(first.left)) as real + scrollLeft,
              (if first.Options? && first.top.Some? then ToInt32(first.top.value) else ToInt32Opt(second)) as real
                + scrollTop))
  {
  }
}
