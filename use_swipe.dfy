/**
 * The swipe recogniser of frontend/src/hooks/use-swipe.ts: two mutable
 * coordinate slots, set by touch start and touch move and read by touch end,
 * which fires at most one of four direction callbacks.
 *
 * Touch coordinates are integers here. A callback the caller did not pass is
 * `false` in `Callbacks`; a call of `onSwipeX` is the returned direction.
 */
module UseSwipe {
  import opened Collections

  datatype Point = Point(x: int, y: int)

  datatype Direction = Left | Right | Up | Down

  /** Which of `onSwipeLeft`, `onSwipeRight`, `onSwipeUp`, `onSwipeDown` were given. */
  datatype Callbacks = Callbacks(left: bool, right: bool, up: bool, down: bool)

  /** `MIN_SWIPE_DISTANCE`. */
  const MinSwipeDistance: int := 10

  function Abs(n: int): nat {
    if n < 0 then -n else n
  }

  function Has(cb: Callbacks, d: Direction): bool {
    match d
    case Left => cb.left
    case Right => cb.right
    case Up => cb.up
    case Down => cb.down
  }

  /** The callback a touch end fires for a gesture from `start` to `end` (lines 49-66). */
  function Classify(start: Point, end: Point, cb: Callbacks): (r: Option<Direction>)
    ensures r.Some? ==> Has(cb, r.value)
  {
    var dx := start.x - end.x;
    var dy := start.y - end.y;
    if Abs(dx) > Abs(dy) then
      if dx > MinSwipeDistance && cb.left then Some(Left)
      else if dx < -MinSwipeDistance && cb.right then Some(Right)
      else None
    else
      if dy > MinSwipeDistance && cb.up then Some(Up)
      else if dy < -MinSwipeDistance && cb.down then Some(Down)
      else None
  }

  /**
   * Each direction fires exactly when the gesture is mainly along its axis
   * (ties count as vertical), longer than the threshold in its sense, and its
   * callback was given; a missing callback fires nothing instead.
   */
  lemma ClassifyIff(start: Point, end: Point, cb: Callbacks)
    ensures var dx, dy := start.x - end.x, start.y - end.y;
      && (Classify(start, end, cb) == Some(Left) <==> Abs(dx) > Abs(dy) && dx > MinSwipeDistance && cb.left)
      && (Classify(start, end, cb) == Some(Right) <==> Abs(dx) > Abs(dy) && dx < -MinSwipeDistance && cb.right)
      && (Classify(start, end, cb) == Some(Up) <==> Abs(dx) <= Abs(dy) && dy > MinSwipeDistance && cb.up)
      && (Classify(start, end, cb) == Some(Down) <==> Abs(dx) <= Abs(dy) && dy < -MinSwipeDistance && cb.down)
  {
  }

  /** A movement of at most the threshold along both axes fires nothing. */
  lemma ShortGestureFiresNothing(start: Point, end: Point, cb: Callbacks)
    requires Abs(start.x - end.x) <= MinSwipeDistance && Abs(start.y - end.y) <= MinSwipeDistance
    ensures Classify(start, end, cb).None?
  {
  }

  function Opposite(d: Direction): Direction {
    match d
    case Left => Right
    case Right => Left
    case Up => Down
    case Down => Up
  }

  function Mirrored(cb: Callbacks): Callbacks {
    Callbacks(cb.right, cb.left, cb.down, cb.up)
  }

  /** The same gesture run backwards is classified as the opposite direction, with the callbacks mirrored. */
  lemma ReverseGesture(start: Point, end: Point, cb: Callbacks)
    ensures var r := Classify(start, end, cb);
      Classify(end, start, Mirrored(cb)) == if r.Some? then Some(Opposite(r.value)) else None
  {
  }

  /** `useSwipe(input)`: the two refs and the three handlers over them. */
  class Swipe {
    var touchStart: Option<Point>
    var touchEnd: Option<Point>
    const callbacks: Callbacks

    constructor (callbacks: Callbacks)
      ensures touchStart.None? && touchEnd.None?
      ensures this.callbacks == callbacks
    {
      touchStart := None;
      touchEnd := None;
      this.callbacks := callbacks;
    }

    /**
     * `onTouchStart`; `filterResult` is `input.filter(e)`, absent when no
     * filter was given. A rejected touch clears the start and keeps the end.
     */
    method OnTouchStart(filterResult: Option<bool>, p: Point)
      modifies this
      ensures filterResult == Some(false) ==> touchStart.None? && touchEnd == old(touchEnd)
      ensures filterResult != Some(false) ==> touchStart == Some(p) && touchEnd.None?
    {
      if filterResult == Some(false) {
        touchStart := None;
        return;
      }
      touchEnd := None;
      touchStart := Some(p);
    }

    /** `onTouchMove`: records the end point, but only once a start is recorded. */
    method OnTouchMove(p: Point)
      modifies this
      ensures touchStart == old(touchStart)
      ensures touchEnd == if old(touchStart).Some? then Some(p) else old(touchEnd)
    {
      if touchStart.None? {
        return;
      }
      touchEnd := Some(p);
    }

    /** `onTouchEnd`: with both slots set, fires the classified callback and clears both; otherwise does nothing. */
    method OnTouchEnd() returns (fired: Option<Direction>)
      modifies this
      ensures old(touchStart).Some? && old(touchEnd).Some? ==>
        fired == Classify(old(touchStart).value, old(touchEnd).value, callbacks)
        && touchStart.None? && touchEnd.None?
      ensures old(touchStart).None? || old(touchEnd).None? ==>
        fired.None? && touchStart == old(touchStart) && touchEnd == old(touchEnd)
    {
      if touchStart.None? || touchEnd.None? {
        return None;
      }
      var distanceX := touchStart.value.x - touchEnd.value.x;
      var distanceY := touchStart.value.y - touchEnd.value.y;
      var isHorizontalSwipe := Abs(distanceX) > Abs(distanceY);
      fired := None;
      if isHorizontalSwipe {
        if distanceX > MinSwipeDistance && callbacks.left {
          fired := Some(Left);
        } else if distanceX < -MinSwipeDistance && callbacks.right {
          fired := Some(Right);
        }
      } else {
        if distanceY > MinSwipeDistance && callbacks.up {
          fired := Some(Up);
        } else if distanceY < -MinSwipeDistance && callbacks.down {
          fired := Some(Down);
        }
      }
      touchStart := None;
      touchEnd := None;
    }
  }

  /** A tap (touch start then touch end with no move) fires nothing, whatever came before. */
  method TapFiresNothing(s: Swipe, filterResult: Option<bool>, p: Point) returns (fired: Option<Direction>)
    modifies s
    ensures fired.None?
  {
    s.OnTouchStart(filterResult, p);
    fired := s.OnTouchEnd();
  }

  /** After a touch start the filter rejects, moves and the touch end fire nothing. */
  method RejectedStartFiresNothing(s: Swipe, p: Point, q: Point) returns (fired: Option<Direction>)
    modifies s
    ensures fired.None?
  {
    s.OnTouchStart(Some(false), p);
    s.OnTouchMove(q);
    fired := s.OnTouchEnd();
  }

  /** A full gesture on fresh slots fires what `Classify` says and leaves both slots empty. */
  method Gesture(cb: Callbacks, start: Point, end: Point) returns (fired: Option<Direction>)
    ensures fired == Classify(start, end, cb)
  {
    var s := new Swipe(cb);
    s.OnTouchStart(None, start);
    s.OnTouchMove(end);
    fired := s.OnTouchEnd();
    assert s.touchStart.None? && s.touchEnd.None?;
  }
}
