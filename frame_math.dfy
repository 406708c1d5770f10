/** The arithmetic of one animation frame.

    An animation runs for SCROLL_TIME time units. At a frame taken at `time`
    the elapsed fraction is clamped to at most 1, passed through the easing
    curve, and used to interpolate each axis between the start offset and the
    destination. The easing curve is a parameter: the half-cosine curve of the
    polyfill is floating point, and the facts proved here only need the curve
    properties each lemma names (ease(1) == 1, monotone on [0, 1], or valued
    in [0, 1]). */
module FrameMath {

  /** Duration of a smooth scroll, in the time source's units (milliseconds). */
  const SCROLL_TIME: real := 300.0

  /** The fixed part of a scroll context: when the animation started, where it
      started, and where it is going. */
  datatype Frame = Frame(startTime: real, startX: real, startY: real, x: real, y: real)

  /** The elapsed fraction of the animation at `time`, clamped to 1. */
  function Elapsed(f: Frame, time: real): (e: real)
    ensures e <= 1.0
    ensures e == 1.0 <==> time >= f.startTime + SCROLL_TIME
    ensures e < 1.0 ==> e * SCROLL_TIME == time - f.startTime
    ensures f.startTime <= time ==> 0.0 <= e
  {
    var e := (time - f.startTime) / SCROLL_TIME;
    if e > 1.0 then 1.0 else e
  }

  /** Linear interpolation from `a` (at progress 0) to `b` (at progress 1). */
  function Lerp(a: real, b: real, v: real): (r: real) {
    a + (b - a) * v
  }

  /** The offset written at a frame taken at `time`. */
  function Position(f: Frame, time: real, ease: real -> real): (p: (real, real)) {
    var v := ease(Elapsed(f, time));
    (Lerp(f.startX, f.x, v), Lerp(f.startY, f.y, v))
  }

  /** The written offset equals the destination: no further frame is requested. */
  predicate Arrived(f: Frame, time: real, ease: real -> real) {
    Position(f, time, ease) == (f.x, f.y)
  }

  /** Interpolation reaches the destination exactly when the axis does not move
      or the progress is 1. */
  lemma LerpHits(a: real, b: real, v: real)
    ensures Lerp(a, b, v) == b <==> a == b || v == 1.0
  {
    var d, w := b - a, v - 1.0;
    assert Lerp(a, b, v) - b == d * w;
    if d * w == 0.0 && w != 0.0 {
      assert d == (d * w) / w;
    }
  }

  /** More progress is never further from the destination. */
  lemma LerpMonotone(a: real, b: real, v1: real, v2: real)
    requires v1 <= v2
    ensures a <= b ==> Lerp(a, b, v1) <= Lerp(a, b, v2)
    ensures b <= a ==> Lerp(a, b, v2) <= Lerp(a, b, v1)
  {
    assert Lerp(a, b, v2) - Lerp(a, b, v1) == (b - a) * (v2 - v1);
  }

  /** Progress within [0, 1] stays between the endpoints. */
  lemma {:induction false} LerpBetween(a: real, b: real, v: real)
    requires 0.0 <= v <= 1.0
    ensures a <= b ==> a <= Lerp(a, b, v) <= b
    ensures b <= a ==> b <= Lerp(a, b, v) <= a
  {
    LerpMonotone(a, b, 0.0, v);
    LerpMonotone(a, b, v, 1.0);
  }

  /** A frame arrives exactly when every moving axis has eased progress 1. */
  lemma {:induction false} ArrivedIff(f: Frame, time: real, ease: real -> real)
    ensures Arrived(f, time, ease) <==>
              (f.startX == f.x || ease(Elapsed(f, time)) == 1.0)
              && (f.startY == f.y || ease(Elapsed(f, time)) == 1.0)
  {
    var v := ease(Elapsed(f, time));
    LerpHits(f.startX, f.x, v);
    LerpHits(f.startY, f.y, v);
  }

  /** With ease(1) == 1, a frame taken at or after the end of the duration
      writes exactly the destination, so the animation stops there. */
  lemma {:induction false} FinalFrameArrives(f: Frame, time: real, ease: real -> real)
    requires ease(1.0) == 1.0
    requires time >= f.startTime + SCROLL_TIME
    ensures Position(f, time, ease) == (f.x, f.y)
    ensures Arrived(f, time, ease)
  {
    ArrivedIff(f, time, ease);
  }

  /** When the start already is the destination, every frame writes it: one
      write and no further frame, whatever the easing curve. */
  lemma {:induction false} StationaryArrives(f: Frame, time: real, ease: real -> real)
    requires f.startX == f.x && f.startY == f.y
    ensures Position(f, time, ease) == (f.x, f.y)
    ensures Arrived(f, time, ease)
  {
    ArrivedIff(f, time, ease);
  }

  /** With an easing curve that is monotone on [0, 1], later frames are never
      behind earlier ones: each axis moves monotonically toward its destination. */
  lemma {:induction false} PositionMonotone(f: Frame, t1: real, t2: real, ease: real -> real)
    requires forall a, b :: 0.0 <= a <= b <= 1.0 ==> ease(a) <= ease(b)
    requires f.startTime <= t1 <= t2
    ensures f.startX <= f.x ==> Position(f, t1, ease).0 <= Position(f, t2, ease).0
    ensures f.x <= f.startX ==> Position(f, t2, ease).0 <= Position(f, t1, ease).0
    ensures f.startY <= f.y ==> Position(f, t1, ease).1 <= Position(f, t2, ease).1
    ensures f.y <= f.startY ==> Position(f, t2, ease).1 <= Position(f, t1, ease).1
  {
    var e1, e2 := Elapsed(f, t1), Elapsed(f, t2);
    assert e1 <= e2 by {
      if e2 < 1.0 {
        assert e1 * SCROLL_TIME <= e2 * SCROLL_TIME;
      }
    }
    LerpMonotone(f.startX, f.x, ease(e1), ease(e2));
    LerpMonotone(f.startY, f.y, ease(e1), ease(e2));
  }

  /** With an easing curve valued in [0, 1], every written offset lies between
      the start and the destination on each axis. */
  lemma {:induction false} PositionBetween(f: Frame, time: real, ease: real -> real)
    requires 0.0 <= ease(Elapsed(f, time)) <= 1.0
    ensures var p := Position(f, time, ease);
      && (f.startX <= f.x ==> f.startX <= p.0 <= f.x)
      && (f.x <= f.startX ==> f.x <= p.0 <= f.startX)
      && (f.startY <= f.y ==> f.startY <= p.1 <= f.y)
      && (f.y <= f.startY ==> f.y <= p.1 <= f.startY)
  {
    LerpBetween(f.startX, f.x, ease(Elapsed(f, time)));
    LerpBetween(f.startY, f.y, ease(Elapsed(f, time)));
  }
}
