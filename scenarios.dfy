/**
 * Concrete runs as client code of the model. Most methods restate the
 * repository's unit tests: each builds fresh objects, drives them as the test
 * does, and its postcondition is what the test asserts. `DroppedBeforeStop`,
 * `NegativeQueued`, `NegativeDispatchedLast`, `TieOrder` and the
 * `Reschedule*` lemmas restate no test; they pin down the admission filter
 * before stop, the unsorted End, and the order of tied events.
 */
module Scenarios {
  import opened Wrappers
  import opened Events
  import opened EventOrder
  import opened Engine
  import opened MM1
  import opened EventLists

  /** The test handler's callbacks, registered under these names. */
  const ON_START: Callback := "_handle_start"
  const ON_STOP: Callback := "_handle_stop"
  const ON_EVENT: Callback := "_handle_event"

  /*
   * Facts about short list displays. Each is proved on its own, where no sort
   * or reverse is in scope for the solver to unfold.
   */

  lemma AppendToOne(x: Event, y: Event)
    ensures [x] + [y] == [x, y]
  {
  }

  lemma AppendToTwo(x: Event, y: Event, z: Event)
    ensures [x, y] + [z] == [x, y, z]
  {
  }

  lemma AppendToThree(w: Event, x: Event, y: Event, z: Event)
    ensures [w, x, y] + [z] == [w, x, y, z]
  {
  }

  lemma PrependToTwo(x: Event, y: Event, z: Event)
    ensures [x] + [y, z] == [x, y, z]
  {
  }

  lemma PrependToThree(w: Event, x: Event, y: Event, z: Event)
    ensures [w] + [x, y, z] == [w, x, y, z]
  {
  }

  lemma TailOfOne(x: Event)
    ensures [x][1..] == []
  {
  }

  lemma TailOfTwo(x: Event, y: Event)
    ensures [x, y][1..] == [y]
  {
  }

  lemma TailOfThree(x: Event, y: Event, z: Event)
    ensures [x, y, z][1..] == [y, z]
  {
  }

  lemma TailOfFour(w: Event, x: Event, y: Event, z: Event)
    ensures [w, x, y, z][1..] == [x, y, z]
  {
  }

  /** Reversing one event. */
  lemma ReverseOne(x: Event)
    ensures Reverse([x]) == [x]
  {
    var r := Reverse([x]);
    assert r[0] == x;
  }

  /** Reversing two events. */
  lemma ReverseTwo(x: Event, y: Event)
    ensures Reverse([x, y]) == [y, x]
  {
    var r := Reverse([x, y]);
    assert r[0] == y && r[1] == x;
  }

  /** The first admitted event is the whole list. */
  lemma RescheduleIntoEmpty(e: Event)
    ensures Rescheduled([], e) == [e]
  {
    assert [] + [e] == [e];
    SortOne(e);
    ReverseOne(e);
  }

  /** An event earlier than the only entry goes behind it, at the tail. */
  lemma RescheduleOne(end: Event, e: Event)
    requires e.time < end.time
    ensures Rescheduled([end], e) == [end, e]
  {
    AppendToOne(end, e);
    SortOne(e);
    SortStep([end, e]);
    TailOfTwo(end, e);
    InsertBehindOne(end, e);
    ReverseTwo(e, end);
  }

  /** Sorting a non-empty list inserts its head into the sorted rest. */
  lemma SortStep(s: seq<Event>)
    requires s != []
    ensures SortByTime(s) == InsertByTime(s[0], SortByTime(s[1..]))
  {
  }

  /** An event no later than the head is inserted in front. */
  lemma InsertFront(x: Event, s: seq<Event>)
    requires s == [] || x.time <= s[0].time
    ensures InsertByTime(x, s) == [x] + s
  {
  }

  /** An event later than the head is inserted behind it. */
  lemma InsertBehind(x: Event, s: seq<Event>)
    requires s != [] && x.time > s[0].time
    ensures InsertByTime(x, s) == [s[0]] + InsertByTime(x, s[1..])
  {
  }

  /** An event later than `y` is inserted behind it, into the rest. */
  lemma InsertBehindHead(x: Event, y: Event, rest: seq<Event>)
    requires x.time > y.time
    ensures InsertByTime(x, [y] + rest) == [y] + InsertByTime(x, rest)
  {
    assert ([y] + rest)[1..] == rest;
  }

  /** A one-event list is sorted. */
  lemma SortOne(x: Event)
    ensures SortByTime([x]) == [x]
  {
    SortStep([x]);
    TailOfOne(x);
    InsertFront(x, []);
  }

  /** Two events already in time order stay in that order. */
  lemma SortPair(x: Event, y: Event)
    requires x.time <= y.time
    ensures SortByTime([x, y]) == [x, y]
  {
    SortOne(y);
    SortStep([x, y]);
    TailOfTwo(x, y);
    InsertFront(x, [y]);
  }

  /** Sorting `[end, a, b]` with `a` and `b` tied before `end` keeps `a` before `b`. */
  lemma SortTwoTied(end: Event, a: Event, b: Event)
    requires a.time == b.time < end.time
    ensures SortByTime([end, a, b]) == [a, b, end]
  {
    SortPair(a, b);
    InsertBehindTwo(end, a, b);
    SortStep([end, a, b]);
    TailOfThree(end, a, b);
  }

  /** A second event tied with the tail goes in front of it: the first one stays imminent. */
  lemma RescheduleSecondTie(end: Event, a: Event, b: Event)
    requires a.time == b.time < end.time
    ensures Rescheduled([end, a], b) == [end, b, a]
  {
    AppendToTwo(end, a, b);
    SortTwoTied(end, a, b);
    ReverseThree(a, b, end);
  }

  /** Reversing three events. */
  lemma ReverseThree(x: Event, y: Event, z: Event)
    ensures Reverse([x, y, z]) == [z, y, x]
  {
    var r := Reverse([x, y, z]);
    assert r[0] == z && r[1] == y && r[2] == x;
  }

  /** Reversing four events. */
  lemma ReverseFour(w: Event, x: Event, y: Event, z: Event)
    ensures Reverse([w, x, y, z]) == [z, y, x, w]
  {
    var r := Reverse([w, x, y, z]);
    assert r[0] == z && r[1] == y && r[2] == x && r[3] == w;
  }

  /** Three tied events are already sorted. */
  lemma ThreeTiedSorted(a: Event, b: Event, c: Event)
    requires a.time == b.time == c.time
    ensures SortByTime([b, a, c]) == [b, a, c]
  {
    SortPair(a, c);
    SortStep([b, a, c]);
    TailOfThree(b, a, c);
    InsertFront(b, [a, c]);
  }

  /** An event later than one other is inserted behind it. */
  lemma InsertBehindOne(end: Event, c: Event)
    requires c.time < end.time
    ensures InsertByTime(end, [c]) == [c, end]
  {
    InsertBehind(end, [c]);
    InsertFront(end, []);
  }

  /** An event later than two others is inserted behind both. */
  lemma InsertBehindTwo(end: Event, a: Event, c: Event)
    requires a.time < end.time && c.time < end.time
    ensures InsertByTime(end, [a, c]) == [a, c, end]
  {
    AppendToOne(a, c);
    InsertBehindHead(end, a, [c]);
    InsertBehindOne(end, c);
    PrependToTwo(a, c, end);
  }

  /** An event later than three others is inserted behind all of them. */
  lemma InsertBehindThree(end: Event, a: Event, b: Event, c: Event)
    requires a.time < end.time && b.time < end.time && c.time < end.time
    ensures InsertByTime(end, [b, a, c]) == [b, a, c, end]
  {
    PrependToTwo(b, a, c);
    InsertBehindHead(end, b, [a, c]);
    InsertBehindTwo(end, a, c);
    PrependToThree(b, a, c, end);
  }

  /** Sorting `[end, b, a, c]`, all but `end` tied, keeps the list order of the tied ones. */
  lemma SortThreeTied(end: Event, a: Event, b: Event, c: Event)
    requires a.time == b.time == c.time < end.time
    ensures SortByTime([end, b, a, c]) == [b, a, c, end]
  {
    ThreeTiedSorted(a, b, c);
    InsertBehindThree(end, a, b, c);
    SortStep([end, b, a, c]);
    TailOfFour(end, b, a, c);
  }

  /**
   * A third tied event reorders the two already there: the one scheduled
   * second becomes imminent, then the first, then the new one.
   */
  lemma RescheduleThirdTie(end: Event, a: Event, b: Event, c: Event)
    requires a.time == b.time == c.time < end.time
    ensures Rescheduled([end, b, a], c) == [end, c, a, b]
  {
    AppendToThree(end, b, a, c);
    SortThreeTied(end, a, b, c);
    ReverseFour(b, a, c, end);
  }

  /** A later event followed by an earlier one: sorting swaps them. */
  lemma SortSwapPair(a: Event, d: Event)
    requires d.time < a.time
    ensures SortByTime([a, d]) == [d, a]
  {
    SortOne(d);
    SortStep([a, d]);
    TailOfTwo(a, d);
    InsertBehindOne(a, d);
  }

  /** An event tied with the tail of `[d, a]` and later than `d` goes between them. */
  lemma InsertBetween(b: Event, d: Event, a: Event)
    requires d.time < b.time <= a.time
    ensures InsertByTime(b, [d, a]) == [d, b, a]
  {
    InsertBehind(b, [d, a]);
    TailOfTwo(d, a);
    InsertFront(b, [a]);
  }

  /** An earlier event sorts in front of two tied ones, which keep their list order. */
  lemma SortEarlierBeforeTies(a: Event, b: Event, d: Event)
    requires d.time < a.time == b.time
    ensures SortByTime([b, a, d]) == [d, b, a]
  {
    SortSwapPair(a, d);
    InsertBetween(b, d, a);
    SortStep([b, a, d]);
    TailOfThree(b, a, d);
  }

  /**
   * Every later admitted event flips the tied events already queued: with `a`
   * at the tail and `b` before it, scheduling an earlier `d` leaves `b` ahead
   * of `a` in the pop order, which becomes D, B, A.
   */
  lemma RescheduleFlipsTies(end: Event, a: Event, b: Event, d: Event)
    requires d.time < a.time == b.time < end.time
    ensures Rescheduled([end, b, a], d) == [end, a, b, d]
  {
    AppendToThree(end, b, a, d);
    SortEarlierBeforeTies(a, b, d);
    InsertBehindThree(end, b, d, a);
    SortStep([end, b, a, d]);
    TailOfFour(end, b, a, d);
    ReverseFour(d, b, a, end);
  }

  /** Draining a two-entry list with one event callback: the tail first, then the head. */
  lemma DrainTwo(x: Event, y: Event, cb: Callback)
    ensures DrainCalls([x, y], [cb]) == [Call(cb, EventNotice(y, y.time)), Call(cb, EventNotice(x, x.time))]
  {
    assert [x, y][..1] == [x];
    assert [x][..0] == [];
    var cy := Calls([cb], EventNotice(y, y.time));
    var cx := Calls([cb], EventNotice(x, x.time));
    assert cy == [Call(cb, EventNotice(y, y.time))];
    assert cx == [Call(cb, EventNotice(x, x.time))];
    assert DrainCalls([x], [cb]) == cx + DrainCalls([], [cb]);
    assert DrainCalls([x, y], [cb]) == cy + DrainCalls([x], [cb]);
  }

  /** A run over `s` with one callback of each type. */
  lemma SingleCallbackRun(s: seq<Event>, drained: seq<Call>)
    requires drained == DrainCalls(s, [ON_EVENT])
    ensures RunCalls(map[START_CALLBACK := [ON_START], STOP_CALLBACK := [ON_STOP], EVENT_CALLBACK := [ON_EVENT]], s)
         == [Call(ON_START, StartNotice)] + drained + [Call(ON_STOP, StopNotice)]
  {
    assert Calls([ON_START], StartNotice) == [Call(ON_START, StartNotice)];
    assert Calls([ON_STOP], StopNotice) == [Call(ON_STOP, StopNotice)];
  }

  /** An engine with the test handler attached: one callback of each type. */
  method TestEngine() returns (se: SimulationEngine)
    ensures fresh(se) && se.Valid()
    ensures se.callbacks == map[START_CALLBACK := [ON_START], STOP_CALLBACK := [ON_STOP], EVENT_CALLBACK := [ON_EVENT]]
    ensures se.events == [] && se.calls == [] && se.eventHandlerAttached
    ensures se.finishTime == 0.0 && !se.finishEventExists && se.simulationTime == 0.0
  {
    se := new SimulationEngine();
    assert START_CALLBACK != STOP_CALLBACK && START_CALLBACK != EVENT_CALLBACK && STOP_CALLBACK != EVENT_CALLBACK by {
      assert START_CALLBACK[2] != STOP_CALLBACK[2] && START_CALLBACK[0] != EVENT_CALLBACK[0] && STOP_CALLBACK[0] != EVENT_CALLBACK[0];
    }
    var ok := se.RegisterCallback(ON_START, START_CALLBACK);
    assert [] + [ON_START] == [ON_START] && [] + [ON_STOP] == [ON_STOP] && [] + [ON_EVENT] == [ON_EVENT];
    assert se.callbacks == map[START_CALLBACK := [ON_START], STOP_CALLBACK := [], EVENT_CALLBACK := []];
    ok := se.RegisterCallback(ON_STOP, STOP_CALLBACK);
    assert se.callbacks == map[START_CALLBACK := [ON_START], STOP_CALLBACK := [ON_STOP], EVENT_CALLBACK := []];
    ok := se.RegisterCallback(ON_EVENT, EVENT_CALLBACK);
    se.AttachEventHandler();
  }

  /** Starting an engine with no handler raises before any callback runs. */
  method NoHandlerRaises() returns (r: Outcome<string>, calls: seq<Call>)
    ensures r == Fail(NO_HANDLER_MESSAGE) && calls == []
  {
    var se := new SimulationEngine();
    r := se.Start();
    calls := se.calls;
  }

  /** stop(1) then start: the start callback, End at 1, the stop callback. */
  method NotifyStartAndStop() returns (calls: seq<Call>)
    ensures calls == [Call(ON_START, StartNotice), Call(ON_EVENT, EventNotice(EndEvent(1.0), 1.0)),
                      Call(ON_STOP, StopNotice)]
  {
    var se := TestEngine();
    se.Stop(1.0);
    var r := se.Start();
    assert DrainCalls([EndEvent(1.0)], [ON_EVENT]) == [Call(ON_EVENT, EventNotice(EndEvent(1.0), 1.0))];
    calls := se.calls;
  }

  /** stop(2) then schedule Dummy at 1: Dummy is admitted and sits behind End, at the tail. */
  method DummyScheduled() returns (se: SimulationEngine, admitted: bool)
    ensures fresh(se) && se.Valid() && se.eventHandlerAttached && se.calls == []
    ensures se.callbacks == map[START_CALLBACK := [ON_START], STOP_CALLBACK := [ON_STOP], EVENT_CALLBACK := [ON_EVENT]]
    ensures admitted && se.events == [EndEvent(2.0), Plain("Dummy", 1.0)]
  {
    se := TestEngine();
    se.Stop(2.0);
    admitted := se.Schedule(Plain("Dummy", 1.0));
    RescheduleOne(EndEvent(2.0), Plain("Dummy", 1.0));
  }

  /** stop(2), schedule Dummy at 1, start: Dummy is dispatched at clock 1, then End at clock 2. */
  method NotifyEventOrder() returns (calls: seq<Call>, admitted: bool)
    ensures admitted
    ensures calls == [Call(ON_START, StartNotice),
                      Call(ON_EVENT, EventNotice(Plain("Dummy", 1.0), 1.0)),
                      Call(ON_EVENT, EventNotice(EndEvent(2.0), 2.0)),
                      Call(ON_STOP, StopNotice)]
  {
    var se;
    se, admitted := DummyScheduled();
    ghost var queued := se.events;
    var r := se.Start();
    DrainTwo(EndEvent(2.0), Plain("Dummy", 1.0), ON_EVENT);
    SingleCallbackRun(queued, DrainCalls(queued, [ON_EVENT]));
    calls := se.calls;
  }

  /** Before stop the horizon is 0: an event at time 0 or later is dropped. */
  method DroppedBeforeStop(e: Event) returns (admitted: bool, events: seq<Event>)
    requires e.time >= 0.0
    ensures !admitted && events == []
  {
    var se := TestEngine();
    admitted := se.Schedule(e);
    events := se.events;
  }

  /**
   * Before stop the horizon is 0, so an event at -1 is admitted; stop then
   * appends End without sorting, which leaves the list out of order.
   */
  method NegativeQueued() returns (se: SimulationEngine, admitted: bool)
    ensures fresh(se) && se.Valid() && se.eventHandlerAttached && se.calls == []
    ensures se.callbacks == map[START_CALLBACK := [ON_START], STOP_CALLBACK := [ON_STOP], EVENT_CALLBACK := [ON_EVENT]]
    ensures admitted && se.events == [Plain("X", -1.0), EndEvent(10.0)]
    ensures !NonIncreasing(se.events)
  {
    se := TestEngine();
    admitted := se.Schedule(Plain("X", -1.0));
    RescheduleIntoEmpty(Plain("X", -1.0));
    se.Stop(10.0);
    AppendToOne(Plain("X", -1.0), EndEvent(10.0));
    assert se.events[0].time < se.events[1].time;
  }

  /**
   * schedule(X at -1), stop(10), start: End is popped first, at clock 10,
   * then X moves the clock back to -1.
   */
  method NegativeDispatchedLast() returns (calls: seq<Call>, clock: real)
    ensures calls == [Call(ON_START, StartNotice),
                      Call(ON_EVENT, EventNotice(EndEvent(10.0), 10.0)),
                      Call(ON_EVENT, EventNotice(Plain("X", -1.0), -1.0)),
                      Call(ON_STOP, StopNotice)]
    ensures clock == -1.0
  {
    var se, admitted := NegativeQueued();
    ghost var queued := se.events;
    var r := se.Start();
    DrainTwo(Plain("X", -1.0), EndEvent(10.0), ON_EVENT);
    SingleCallbackRun(queued, DrainCalls(queued, [ON_EVENT]));
    calls := se.calls;
    clock := se.simulationTime;
  }

  /**
   * Ties under the stable sort then reverse: A and B at the same time leave
   * A at the tail; a third C at that time reorders the three to pop B, A, C.
   */
  method TieOrder() returns (afterTwo: seq<Event>, afterThree: seq<Event>)
    ensures afterTwo == [EndEvent(10.0), Plain("B", 5.0), Plain("A", 5.0)]
    ensures afterThree == [EndEvent(10.0), Plain("C", 5.0), Plain("A", 5.0), Plain("B", 5.0)]
  {
    var se := TestEngine();
    se.Stop(10.0);
    var end, a, b, c := EndEvent(10.0), Plain("A", 5.0), Plain("B", 5.0), Plain("C", 5.0);
    var ok := se.Schedule(a);
    RescheduleOne(end, a);
    ok := se.Schedule(b);
    RescheduleSecondTie(end, a, b);
    afterTwo := se.events;
    ok := se.Schedule(c);
    RescheduleThirdTie(end, a, b, c);
    afterThree := se.events;
  }

  /** An added event is found at index 0. */
  method AddThenGet(e: Event) returns (got: Option<Event>)
    ensures got == Some(e)
  {
    var fel := new EventList();
    fel.Add(e);
    got := fel.Get(0);
  }

  /** An added event is popped back. */
  method AddThenPop(e: Event) returns (popped: Option<Event>)
    ensures popped == Some(e)
  {
    var fel := new EventList();
    fel.Add(e);
    popped := fel.Pop();
  }

  /** Two added events come back in the order they were added, then the list is empty. */
  method FirstInFirstOut(a: Event, b: Event) returns (first: Option<Event>, second: Option<Event>, third: Option<Event>)
    ensures first == Some(a) && second == Some(b) && third == None
  {
    var fel := new EventList();
    fel.Add(a);
    fel.Add(b);
    first := fel.Pop();
    second := fel.Pop();
    third := fel.Pop();
  }

  /** A fresh handler on a fresh engine. */
  method TestHandler() returns (h: MM1EventHandler)
    ensures fresh(h) && fresh(h.engine) && h.engine.Valid()
    ensures h.State() == QueueState(0, false, [], [])
  {
    var se := new SimulationEngine();
    h := new MM1EventHandler(se);
  }

  /** An arrival at 1 to an idle, empty queue: one customer, logged at 1, in service. */
  method ArrivalWhileIdle(interarrivalGap: real, serviceGap: real) returns (st: QueueState)
    ensures st == QueueState(1, true, [1.0], [])
  {
    var h := TestHandler();
    h.HandleEvent(Plain(ARRIVAL_EVENT, 1.0), interarrivalGap, serviceGap);
    st := h.State();
  }

  /** An arrival at 1 while the server is busy keeps it busy. */
  method ArrivalWhileBusy(interarrivalGap: real, serviceGap: real) returns (st: QueueState)
    ensures st.isProcessing && st.queueLength == 1 && st.arrivals == [1.0]
  {
    var h := TestHandler();
    h.isProcessing := true;
    h.HandleEvent(Plain(ARRIVAL_EVENT, 1.0), interarrivalGap, serviceGap);
    st := h.State();
  }

  /** A departure at 1 from a queue of one: empty, logged at 1, server idle. */
  method DepartureEmptiesQueue(interarrivalGap: real, serviceGap: real) returns (st: QueueState)
    ensures st == QueueState(0, false, [], [1.0])
  {
    var h := TestHandler();
    h.queueLength := 1;
    h.HandleEvent(Plain(DEPARTURE_EVENT, 1.0), interarrivalGap, serviceGap);
    st := h.State();
  }

  /** A departure at 1 from a queue of two: one left, and its service starts. */
  method DepartureWithQueue(interarrivalGap: real, serviceGap: real) returns (st: QueueState)
    ensures st == QueueState(1, true, [], [1.0])
  {
    var h := TestHandler();
    h.queueLength := 2;
    h.HandleEvent(Plain(DEPARTURE_EVENT, 1.0), interarrivalGap, serviceGap);
    st := h.State();
  }
}
