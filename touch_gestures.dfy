/** The gesture handler for touch screens: its options, its registry of
    event callbacks, the swipe rule applied when a touch ends, and the
    long-press timer. Coordinates and times are integers; the pinch
    gesture is not part of this model. */
module TouchGestures {
  import opened Wrappers
  import opened Seqs

  const DefaultSwipeThreshold := 50
  const DefaultSwipeTimeout := 300
  const DefaultLongPressDelay := 500
  /** 0.1, in hundredths. */
  const DefaultPinchThreshold := 10

  /** The options a caller passes: `None` is a key that is absent. */
  datatype Supplied = Supplied(
    swipeThreshold: Option<int>, swipeTimeout: Option<int>,
    longPressDelay: Option<int>, pinchThreshold: Option<int>)

  datatype Options = Options(swipeThreshold: int, swipeTimeout: int, longPressDelay: int, pinchThreshold: int)

  /** An option's value: an absent key or a zero falls back to the default. */
  function OrDefault(supplied: Option<int>, fallback: int): int {
    if supplied.Some? && supplied.value != 0 then supplied.value else fallback
  }

  /** The spread of the caller's object after the defaults: a key the
      caller gave wins. */
  function Spread(supplied: Option<int>, current: int): int {
    if supplied.Some? then supplied.value else current
  }

  /** The constructor's options: defaults first, then the caller's keys. */
  function MakeOptions(o: Supplied): Options {
    Options(
      Spread(o.swipeThreshold, OrDefault(o.swipeThreshold, DefaultSwipeThreshold)),
      Spread(o.swipeTimeout, OrDefault(o.swipeTimeout, DefaultSwipeTimeout)),
      Spread(o.longPressDelay, OrDefault(o.longPressDelay, DefaultLongPressDelay)),
      Spread(o.pinchThreshold, OrDefault(o.pinchThreshold, DefaultPinchThreshold)))
  }

  /** A default applies exactly to a key the caller left out; a key the
      caller gave is used as given, zero included. */
  lemma OptionsResolve(o: Supplied)
    ensures MakeOptions(o).swipeThreshold == o.swipeThreshold.GetOr(DefaultSwipeThreshold)
    ensures MakeOptions(o).swipeTimeout == o.swipeTimeout.GetOr(DefaultSwipeTimeout)
    ensures MakeOptions(o).longPressDelay == o.longPressDelay.GetOr(DefaultLongPressDelay)
    ensures MakeOptions(o).pinchThreshold == o.pinchThreshold.GetOr(DefaultPinchThreshold)
  {
  }

  /** A caller's zero survives, although `||` alone would replace it. */
  lemma ZeroIsKept()
    ensures OrDefault(Some(0), DefaultSwipeThreshold) == DefaultSwipeThreshold
    ensures MakeOptions(Supplied(Some(0), None, None, None)).swipeThreshold == 0
  {
  }

  // ---------------------------------------------------------------------
  // Swipes

  datatype Direction = Left | Right | Up | Down

  predicate Horizontal(d: Direction) {
    d == Left || d == Right
  }

  function Opposite(d: Direction): Direction {
    match d
    case Left => Right
    case Right => Left
    case Up => Down
    case Down => Up
  }

  datatype Swipe = Swipe(direction: Direction, distance: int)

  function Abs(x: int): (r: int)
    ensures r >= 0 && (r == x || r == -x)
  {
    if x < 0 then -x else x
  }

  /** The swipe a touch makes that moved by (`dx`, `dy`) in `dt`
      milliseconds, if any. */
  function Classify(dx: int, dy: int, dt: int, opts: Options): (r: Option<Swipe>)
    ensures r.Some? <==> dt < opts.swipeTimeout && (Abs(dx) > opts.swipeThreshold || Abs(dy) > opts.swipeThreshold)
    ensures r.Some? ==> (Horizontal(r.value.direction) <==> Abs(dx) > Abs(dy))
    ensures r.Some? ==> r.value.distance == (if Abs(dx) > Abs(dy) then Abs(dx) else Abs(dy))
    ensures r.Some? && Horizontal(r.value.direction) ==> (r.value.direction == Right <==> dx > 0)
    ensures r.Some? && !Horizontal(r.value.direction) ==> (r.value.direction == Down <==> dy > 0)
  {
    if dt < opts.swipeTimeout && (Abs(dx) > opts.swipeThreshold || Abs(dy) > opts.swipeThreshold) then
      if Abs(dx) > Abs(dy) then Some(Swipe(if dx > 0 then Right else Left, Abs(dx)))
      else Some(Swipe(if dy > 0 then Down else Up, Abs(dy)))
    else None
  }

  /** A diagonal at exactly 45 degrees counts as vertical. */
  lemma TiesGoVertical(d: int, dt: int, opts: Options)
    requires Classify(d, d, dt, opts).Some?
    ensures !Horizontal(Classify(d, d, dt, opts).value.direction)
  {
  }

  /** Moving the other way swipes the other way, as far and as fast. */
  lemma ReversedSwipe(dx: int, dy: int, dt: int, opts: Options)
    requires dx != 0 || dy != 0
    ensures Classify(-dx, -dy, dt, opts).Some? <==> Classify(dx, dy, dt, opts).Some?
    ensures Classify(dx, dy, dt, opts).Some? ==>
              Classify(-dx, -dy, dt, opts).value ==
              Classify(dx, dy, dt, opts).value.(direction := Opposite(Classify(dx, dy, dt, opts).value.direction))
  {
    assert Abs(-dx) == Abs(dx) && Abs(-dy) == Abs(dy);
  }

  // ---------------------------------------------------------------------
  // The handler

  /** A callback, known by its identity. */
  type Callback = nat

  /** What a callback is passed. */
  datatype Data = LongPress(x: int, y: int) | SwipeData(swipe: Swipe)

  /** One invocation of a callback. */
  datatype Call = Call(callback: Callback, event: string, data: Data)

  /** A touch position and its time. */
  datatype Touch = Touch(x: int, y: int, time: int)

  /** Invoking `callbacks` in order with the same data. */
  function Invocations(callbacks: seq<Callback>, event: string, data: Data): (r: seq<Call>)
    ensures |r| == |callbacks|
    ensures forall i :: 0 <= i < |r| ==> r[i] == Call(callbacks[i], event, data)
  {
    if callbacks == [] then []
    else [Call(callbacks[0], event, data)] + Invocations(callbacks[1..], event, data)
  }

  /** The callbacks registered for `event`, none when it has no list. */
  function Registered(callbacks: map<string, seq<Callback>>, event: string): seq<Callback> {
    if event in callbacks then callbacks[event] else []
  }

  class TouchGestureHandler {
    const options: Options
    var touchStart: Touch
    var touchEnd: Touch
    /** The handle of the last long-press timer, until it is cleared. */
    var longPressTimer: Option<nat>
    /** Long-press timers scheduled and not cancelled. */
    var pendingTimers: set<nat>
    var nextTimer: nat
    var callbacks: map<string, seq<Callback>>
    /** Every callback invocation so far, in order. */
    var calls: seq<Call>

    /** Timer handles are positive and issued in increasing order; the
        current one is one of those issued. */
    predicate Valid()
      reads this
    {
      nextTimer >= 1 &&
      (forall t :: t in pendingTimers ==> 1 <= t < nextTimer) &&
      (longPressTimer.Some? ==> 1 <= longPressTimer.value < nextTimer)
    }

    constructor(supplied: Supplied)
      ensures Valid()
      ensures options == MakeOptions(supplied)
      ensures touchStart == Touch(0, 0, 0) && touchEnd == Touch(0, 0, 0)
      ensures longPressTimer == None && pendingTimers == {} && callbacks == map[] && calls == []
    {
      options := MakeOptions(supplied);
      touchStart := Touch(0, 0, 0);
      touchEnd := Touch(0, 0, 0);
      longPressTimer := None;
      pendingTimers := {};
      nextTimer := 1;
      callbacks := map[];
      calls := [];
    }

    /** `on`: append `cb` to the event's list, creating the list. */
    method On(event: string, cb: Callback)
      modifies this
      ensures callbacks == old(callbacks)[event := Registered(old(callbacks), event) + [cb]]
      ensures calls == old(calls) && longPressTimer == old(longPressTimer) && pendingTimers == old(pendingTimers)
      ensures nextTimer == old(nextTimer) && touchStart == old(touchStart) && touchEnd == old(touchEnd)
    {
      if event !in callbacks {
        callbacks := callbacks[event := []];
      }
      callbacks := callbacks[event := callbacks[event] + [cb]];
    }

    /** `off`: drop every occurrence of `cb` from the event's list; an
        event without a list is left alone. */
    method Off(event: string, cb: Callback)
      modifies this
      ensures event in old(callbacks) ==> callbacks == old(callbacks)[event := Without(old(callbacks)[event], cb)]
      ensures event !in old(callbacks) ==> callbacks == old(callbacks)
      ensures calls == old(calls) && longPressTimer == old(longPressTimer) && pendingTimers == old(pendingTimers)
      ensures nextTimer == old(nextTimer) && touchStart == old(touchStart) && touchEnd == old(touchEnd)
    {
      if event !in callbacks {
        return;
      }
      callbacks := callbacks[event := Without(callbacks[event], cb)];
    }

    /** `trigger`: call the event's callbacks in registration order. */
    method Trigger(event: string, data: Data)
      modifies this
      ensures calls == old(calls) + Invocations(Registered(callbacks, event), event, data)
      ensures callbacks == old(callbacks) && longPressTimer == old(longPressTimer) && pendingTimers == old(pendingTimers)
      ensures nextTimer == old(nextTimer) && touchStart == old(touchStart) && touchEnd == old(touchEnd)
    {
      if event !in callbacks {
        return;
      }
      var made := InvokeAll(callbacks[event], event, data);
      calls := calls + made;
    }

    /** `clearLongPress`: cancel the current timer and forget it. */
    method ClearLongPress()
      requires Valid()
      modifies this
      ensures Valid() && longPressTimer == None
      ensures pendingTimers == if old(longPressTimer).Some? then old(pendingTimers) - {old(longPressTimer).value} else old(pendingTimers)
      ensures callbacks == old(callbacks) && calls == old(calls) && nextTimer == old(nextTimer)
      ensures touchStart == old(touchStart) && touchEnd == old(touchEnd)
    {
      if longPressTimer.Some? {
        pendingTimers := pendingTimers - {longPressTimer.value};
        longPressTimer := None;
      }
    }

    /** `touchstart` with `touches` on the screen at time `now`. Two
        fingers clear the long press (the pinch baseline is not part of
        this model); any other count arms a new timer, without cancelling
        one already running. */
    method TouchStart(touches: seq<Touch>, now: int)
      requires Valid() && |touches| >= 1
      modifies this
      ensures Valid()
      ensures touchStart == Touch(touches[0].x, touches[0].y, now)
      ensures |touches| == 2 ==> longPressTimer == None && nextTimer == old(nextTimer)
      ensures |touches| == 2 ==>
                pendingTimers == if old(longPressTimer).Some? then old(pendingTimers) - {old(longPressTimer).value} else old(pendingTimers)
      ensures |touches| != 2 ==>
                longPressTimer == Some(old(nextTimer)) && old(nextTimer) !in old(pendingTimers) &&
                pendingTimers == old(pendingTimers) + {old(nextTimer)} && nextTimer == old(nextTimer) + 1
      ensures callbacks == old(callbacks) && calls == old(calls) && touchEnd == old(touchEnd)
    {
      touchStart := Touch(touches[0].x, touches[0].y, now);
      if |touches| == 2 {
        ClearLongPress();
      } else {
        longPressTimer := Some(nextTimer);
        pendingTimers := pendingTimers + {nextTimer};
        nextTimer := nextTimer + 1;
      }
    }

    /** A long-press timer fires: `longpress` at the start position. The
        handle is not cleared by firing. */
    method LongPressFired(timer: nat)
      requires Valid() && timer in pendingTimers
      modifies this
      ensures Valid()
      ensures pendingTimers == old(pendingTimers) - {timer}
      ensures calls == old(calls) + Invocations(Registered(callbacks, "longpress"), "longpress", LongPress(touchStart.x, touchStart.y))
      ensures callbacks == old(callbacks) && longPressTimer == old(longPressTimer) && touchStart == old(touchStart)
      ensures nextTimer == old(nextTimer) && touchEnd == old(touchEnd)
    {
      pendingTimers := pendingTimers - {timer};
      Trigger("longpress", LongPress(touchStart.x, touchStart.y));
    }

    /** `touchmove`: any move cancels the long press. */
    method TouchMove()
      requires Valid()
      modifies this
      ensures Valid() && longPressTimer == None
      ensures pendingTimers == if old(longPressTimer).Some? then old(pendingTimers) - {old(longPressTimer).value} else old(pendingTimers)
      ensures callbacks == old(callbacks) && calls == old(calls) && nextTimer == old(nextTimer)
      ensures touchStart == old(touchStart) && touchEnd == old(touchEnd)
    {
      ClearLongPress();
    }

    /** `touchend` with the touches that ended at time `now`: cancel the
        long press and emit at most one swipe. */
    method TouchEnd(changed: seq<Touch>, now: int)
      requires Valid()
      modifies this
      ensures Valid() && longPressTimer == None
      ensures pendingTimers == if old(longPressTimer).Some? then old(pendingTimers) - {old(longPressTimer).value} else old(pendingTimers)
      ensures callbacks == old(callbacks) && touchStart == old(touchStart)
      ensures nextTimer == old(nextTimer)
      ensures changed == [] ==> calls == old(calls) && touchEnd == old(touchEnd)
      ensures changed != [] ==>
                touchEnd == Touch(changed[0].x, changed[0].y, now) &&
                var s := Classify(changed[0].x - touchStart.x, changed[0].y - touchStart.y, now - touchStart.time, options);
                calls == old(calls) + (if s.Some? then Invocations(Registered(callbacks, "swipe"), "swipe", SwipeData(s.value)) else [])
    {
      ClearLongPress();
      if changed == [] {
        return;
      }
      touchEnd := Touch(changed[0].x, changed[0].y, now);
      var s := Classify(touchEnd.x - touchStart.x, touchEnd.y - touchStart.y, touchEnd.time - touchStart.time, options);
      if s.Some? {
        Trigger("swipe", SwipeData(s.value));
      }
    }
  }

  /** Calls each callback of the list in order with the same data. */
  method InvokeAll(list: seq<Callback>, event: string, data: Data) returns (made: seq<Call>)
    ensures made == Invocations(list, event, data)
  {
    made := [];
    var i := 0;
    while i < |list|
      invariant 0 <= i <= |list| && |made| == i
      invariant forall k :: 0 <= k < i ==> made[k] == Call(list[k], event, data)
    {
      made := made + [Call(list[i], event, data)];
      i := i + 1;
    }
  }

  /** A callback appended to the list is called last, after the others. */
  lemma {:induction false} InvocationsSnoc(cbs: seq<Callback>, cb: Callback, event: string, data: Data)
    ensures Invocations(cbs + [cb], event, data) == Invocations(cbs, event, data) + [Call(cb, event, data)]
  {
    var r := Invocations(cbs + [cb], event, data);
    assert |r| == |cbs| + 1;
    assert forall i :: 0 <= i < |r| ==> r[i] == (Invocations(cbs, event, data) + [Call(cb, event, data)])[i];
  }

  /** Registering a callback and removing it again restores the event's
      list, when the callback was not registered before. */
  lemma OnThenOff(callbacks: map<string, seq<Callback>>, event: string, cb: Callback)
    requires cb !in Registered(callbacks, event)
    ensures var added := callbacks[event := Registered(callbacks, event) + [cb]];
            Without(added[event], cb) == Registered(callbacks, event)
  {
    AppendThenWithout(Registered(callbacks, event), cb);
  }

  /** A callback registered once is invoked once per trigger, after those
      registered before it. */
  lemma RegisteredLastRunsLast(callbacks: map<string, seq<Callback>>, event: string, cb: Callback, data: Data)
    ensures var added := callbacks[event := Registered(callbacks, event) + [cb]];
            var calls := Invocations(Registered(added, event), event, data);
            |calls| == |Registered(callbacks, event)| + 1 && calls[|calls| - 1] == Call(cb, event, data)
  {
  }
}
