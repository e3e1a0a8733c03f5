/**
 * The simulation engine: a future event list held as a Python list, the
 * clock, the one-shot horizon set by stop, and a dictionary of callbacks per
 * type. Every admitted schedule leaves the list in non-increasing time order
 * (the imminent event at the tail); stop appends End without sorting, so a
 * list holding events before End, such as one admitted at a negative time
 * before stop, is then out of order.
 *
 * Callbacks are opaque names. Invoking one is recorded in the `calls`
 * ledger together with what it was told (start, an event and the clock at
 * that moment, or stop); the engine's own loop therefore never sees a
 * callback schedule anything. The M/M/1 module runs the same loop with the
 * handler's callbacks spelled out.
 */
module Engine {
  import opened Wrappers
  import opened Events
  import opened EventOrder

  /** Callback types, the keys of the callback dictionary. */
  const START_CALLBACK: string := "start"
  const STOP_CALLBACK: string := "stop"
  const EVENT_CALLBACK: string := "event"

  /** The message of the exception start raises when no handler is attached. */
  const NO_HANDLER_MESSAGE: string := "No EventHandler attached!"

  /** A registered callback function, known by name. */
  type Callback = string

  /** What a callback is told when it is invoked. */
  datatype Notice = StartNotice | EventNotice(event: Event, clock: real) | StopNotice

  /** One invocation of a callback. */
  datatype Call = Call(callback: Callback, notice: Notice)

  /** Invoking the callbacks `cbs` with `notice`: each one once, in registration order. */
  function Calls(cbs: seq<Callback>, notice: Notice): (r: seq<Call>)
    ensures |r| == |cbs|
    ensures forall i :: 0 <= i < |cbs| ==> r[i] == Call(cbs[i], notice)
  {
    if cbs == [] then [] else [Call(cbs[0], notice)] + Calls(cbs[1..], notice)
  }

  /** Dispatching `dispatched` in order, the clock set to each event's time before its callbacks run. */
  function DispatchCalls(dispatched: seq<Event>, cbs: seq<Callback>): seq<Call>
  {
    if dispatched == [] then []
    else Calls(cbs, EventNotice(dispatched[0], dispatched[0].time)) + DispatchCalls(dispatched[1..], cbs)
  }

  /**
   * Regrouping a concatenation of call lists. Dafny knows this, but stating it
   * as a lemma for the exact terms keeps the loop proofs below small.
   */
  lemma Associative(a: seq<Call>, b: seq<Call>, c: seq<Call>)
    ensures (a + b) + c == a + (b + c)
  {
  }

  /** The event calls of popping `s` from its tail until it is empty. */
  function DrainCalls(s: seq<Event>, cbs: seq<Callback>): seq<Call>
  {
    if s == [] then []
    else
      var last := s[|s| - 1];
      Calls(cbs, EventNotice(last, last.time)) + DrainCalls(s[..|s| - 1], cbs)
  }

  /** One pop: the tail's calls come first, then those of draining the rest. */
  lemma DrainStep(s: seq<Event>, cbs: seq<Callback>)
    requires s != []
    ensures DrainCalls(s, cbs)
         == Calls(cbs, EventNotice(s[|s| - 1], s[|s| - 1].time)) + DrainCalls(s[..|s| - 1], cbs)
  {
  }

  /** Dropping the last event of a prefix of `s` gives the next shorter prefix. */
  lemma PrefixPop(s: seq<Event>, n: nat)
    requires 0 < n <= |s|
    ensures s[..n][n - 1] == s[n - 1] && s[..n][..n - 1] == s[..n - 1]
  {
  }

  /** Popping from the tail dispatches the events in reverse list order. */
  lemma {:induction false} DrainIsReverseDispatch(s: seq<Event>, cbs: seq<Callback>)
    ensures DrainCalls(s, cbs) == DispatchCalls(Reverse(s), cbs)
  {
    if s != [] {
      DrainIsReverseDispatch(s[..|s| - 1], cbs);
      assert Reverse(s)[1..] == Reverse(s[..|s| - 1]);
    }
  }

  /** True when the dictionary holds exactly the three callback types. */
  predicate HasCallbackTypes(cbs: map<string, seq<Callback>>)
  {
    cbs.Keys == {START_CALLBACK, STOP_CALLBACK, EVENT_CALLBACK}
  }

  /**
   * Everything a run of the main loop invokes: the start callbacks, then the
   * event callbacks for each event popped from the tail of `s`, then the stop
   * callbacks.
   */
  function RunCalls(cbs: map<string, seq<Callback>>, s: seq<Event>): seq<Call>
    requires HasCallbackTypes(cbs)
  {
    Calls(cbs[START_CALLBACK], StartNotice)
    + DrainCalls(s, cbs[EVENT_CALLBACK])
    + Calls(cbs[STOP_CALLBACK], StopNotice)
  }

  /**
   * A run's calls are the start calls, the event calls of dispatching the
   * list in reverse order, and the stop calls; a non-increasing list is
   * thereby dispatched in ascending time.
   */
  lemma RunDispatchesReversed(cbs: map<string, seq<Callback>>, s: seq<Event>)
    requires HasCallbackTypes(cbs)
    ensures RunCalls(cbs, s)
         == Calls(cbs[START_CALLBACK], StartNotice)
            + DispatchCalls(Reverse(s), cbs[EVENT_CALLBACK])
            + Calls(cbs[STOP_CALLBACK], StopNotice)
    ensures NonIncreasing(s) ==> Ascending(Reverse(s))
  {
    DrainIsReverseDispatch(s, cbs[EVENT_CALLBACK]);
    if NonIncreasing(s) {
      NonIncreasingReversed(s);
    }
  }

  /** The event list after an admitted schedule: append, stable sort by time, reverse. */
  function Rescheduled(s: seq<Event>, e: Event): (r: seq<Event>)
    ensures multiset(r) == multiset(s) + multiset{e}
    ensures NonIncreasing(r)
  {
    var sorted := SortByTime(s + [e]);
    ReverseAscending(sorted);
    ReversePermutes(sorted);
    Reverse(sorted)
  }

  /** The event list after schedule(e) under the horizon `finishTime`. */
  function Admit(s: seq<Event>, finishTime: real, e: Event): seq<Event>
  {
    if e.time < finishTime then Rescheduled(s, e) else s
  }

  /** Every event of `s` occurs before `bound`. */
  ghost predicate AllBefore(s: seq<Event>, bound: real)
  {
    forall i :: 0 <= i < |s| ==> s[i].time < bound
  }

  /** Scheduling an event before `bound` keeps every event before `bound`. */
  lemma RescheduledAllBefore(s: seq<Event>, e: Event, bound: real)
    requires AllBefore(s, bound) && e.time < bound
    ensures AllBefore(Rescheduled(s, e), bound)
  {
    var r := Rescheduled(s, e);
    forall i | 0 <= i < |r| ensures r[i].time < bound {
      assert r[i] in multiset(s) + multiset{e};
      if r[i] != e {
        var k :| 0 <= k < |s| && s[k] == r[i];
      }
    }
  }

  /**
   * The shape stop gives an empty list and schedule keeps: the End event at
   * the head (popped last) and every other event strictly before the horizon.
   */
  ghost predicate HorizonGuard(s: seq<Event>, finishTime: real)
  {
    s != [] && s[0] == EndEvent(finishTime)
    && forall i :: 1 <= i < |s| ==> s[i].time < finishTime
  }

  /** The head of a non-increasing list has the largest time. */
  lemma HeadIsMaximum(r: seq<Event>, x: Event)
    requires NonIncreasing(r) && x in r
    ensures r[0].time >= x.time
  {
    var j :| 0 <= j < |r| && r[j] == x;
    if j > 0 { assert r[0].time >= r[j].time; }
  }

  /** A non-increasing list holding `end` and otherwise only events before `end.time` starts with `end`. */
  lemma MaximumLeads(r: seq<Event>, end: Event, others: seq<Event>)
    requires NonIncreasing(r)
    requires multiset(r) == multiset{end} + multiset(others)
    requires forall x :: x in others ==> x.time < end.time
    ensures r != [] && r[0] == end
    ensures forall i :: 1 <= i < |r| ==> r[i].time < end.time
  {
    assert end in multiset(r);
    HeadIsMaximum(r, end);
    assert r[0] in multiset(r);
    assert r == [r[0]] + r[1..];
    assert multiset(r) == multiset{r[0]} + multiset(r[1..]);
    assert multiset(r[1..]) == multiset(r) - multiset{end};
    assert multiset(r[1..]) == multiset(others);
    forall i | 1 <= i < |r| ensures r[i].time < end.time {
      assert r[1..][i - 1] == r[i];
      assert r[i] in multiset(others);
    }
  }

  /** An admitted event cannot displace End from the head of the list. */
  lemma HorizonPreserved(s: seq<Event>, finishTime: real, e: Event)
    requires HorizonGuard(s, finishTime)
    requires e.time < finishTime
    ensures HorizonGuard(Rescheduled(s, e), finishTime)
  {
    var end := EndEvent(finishTime);
    var others := s[1..] + [e];
    assert s == [end] + s[1..];
    assert multiset(s) + multiset{e} == multiset{end} + multiset(others);
    forall x | x in others ensures x.time < finishTime {
      if x != e {
        var k :| 0 <= k < |s[1..]| && s[1..][k] == x;
        assert s[k + 1] == x;
      }
    }
    MaximumLeads(Rescheduled(s, e), end, others);
  }

  /** Dispatching a horizon-guarded list delivers End last and everything else before the horizon. */
  lemma EndDispatchedLast(s: seq<Event>, finishTime: real)
    requires HorizonGuard(s, finishTime)
    ensures Reverse(s)[|s| - 1] == EndEvent(finishTime)
    ensures forall i :: 0 <= i < |s| - 1 ==> Reverse(s)[i].time < finishTime
  {
    forall i | 0 <= i < |s| - 1 ensures Reverse(s)[i].time < finishTime {
      assert Reverse(s)[i] == s[|s| - 1 - i];
    }
  }

  class SimulationEngine {
    /** The future event list; the imminent event is at the tail. */
    var events: seq<Event>
    var simulationTime: real
    var finishTime: real
    var finishEventExists: bool
    /** The callback dictionary: callback type to functions, in registration order. */
    var callbacks: map<string, seq<Callback>>
    var eventHandlerAttached: bool
    /** Every callback invocation so far, in order. */
    var calls: seq<Call>

    /**
     * The dictionary keeps its three types; until stop is called the horizon
     * stays 0, so only events before time 0 can be on the list.
     */
    ghost predicate Valid()
      reads this
    {
      && HasCallbackTypes(callbacks)
      && (!finishEventExists ==> finishTime == 0.0 && AllBefore(events, 0.0))
    }

    /** Nothing but the ledger of calls changed. */
    twostate predicate OnlyCallsChanged()
      reads this
    {
      && events == old(events) && simulationTime == old(simulationTime)
      && finishTime == old(finishTime) && finishEventExists == old(finishEventExists)
      && callbacks == old(callbacks) && eventHandlerAttached == old(eventHandlerAttached)
    }

    constructor ()
      ensures Valid()
      ensures events == [] && simulationTime == 0.0
      ensures finishTime == 0.0 && !finishEventExists
      ensures callbacks == map[START_CALLBACK := [], STOP_CALLBACK := [], EVENT_CALLBACK := []]
      ensures !eventHandlerAttached && calls == []
    {
      events := [];
      simulationTime := 0.0;
      finishTime := 0.0;
      finishEventExists := false;
      callbacks := map[START_CALLBACK := [], STOP_CALLBACK := [], EVENT_CALLBACK := []];
      eventHandlerAttached := false;
      calls := [];
    }

    /** Assigning a handler to the engine's event_handler attribute. */
    method AttachEventHandler()
      requires Valid()
      modifies this
      ensures Valid() && eventHandlerAttached
      ensures events == old(events) && simulationTime == old(simulationTime)
      ensures finishTime == old(finishTime) && finishEventExists == old(finishEventExists)
      ensures callbacks == old(callbacks) && calls == old(calls)
    {
      eventHandlerAttached := true;
    }

    /** Sets the horizon and appends End, unsorted; only the first call has any effect. */
    method Stop(finish: real)
      requires Valid()
      modifies this
      ensures Valid() && finishEventExists
      ensures old(finishEventExists) ==> events == old(events) && finishTime == old(finishTime)
      ensures !old(finishEventExists) ==> finishTime == finish && events == old(events) + [EndEvent(finish)]
      ensures !old(finishEventExists) && old(events) == [] ==> HorizonGuard(events, finishTime)
      ensures simulationTime == old(simulationTime) && callbacks == old(callbacks)
      ensures eventHandlerAttached == old(eventHandlerAttached) && calls == old(calls)
    {
      if !finishEventExists {
        finishTime := finish;
        events := events + [EndEvent(finishTime)];
        finishEventExists := true;
      }
    }

    /**
     * Adds `e` if it occurs before the horizon, then sorts by time (stably)
     * and reverses, so that the tail holds a minimum-time event. `admitted`
     * reports whether the event was kept.
     */
    method Schedule(e: Event) returns (admitted: bool)
      requires Valid()
      modifies this
      ensures Valid()
      ensures admitted <==> e.time < old(finishTime)
      ensures events == Admit(old(events), old(finishTime), e)
      ensures admitted ==> multiset(events) == multiset(old(events)) + multiset{e} && NonIncreasing(events)
      ensures !admitted ==> events == old(events)
      ensures !old(finishEventExists) && e.time >= 0.0 ==> !admitted
      ensures HorizonGuard(old(events), old(finishTime)) ==> HorizonGuard(events, finishTime)
      ensures simulationTime == old(simulationTime) && finishTime == old(finishTime)
      ensures finishEventExists == old(finishEventExists) && callbacks == old(callbacks)
      ensures eventHandlerAttached == old(eventHandlerAttached) && calls == old(calls)
    {
      admitted := e.time < finishTime;
      if admitted {
        ghost var before := events;
        events := Rescheduled(events, e);
        if HorizonGuard(before, finishTime) {
          HorizonPreserved(before, finishTime, e);
        }
        if !finishEventExists {
          RescheduledAllBefore(before, e, 0.0);
        }
      }
    }

    /** Appends `func` to the list registered for `ttype`; an unknown type is a KeyError. */
    method RegisterCallback(func: Callback, ttype: string) returns (ok: bool)
      requires Valid()
      modifies this
      ensures Valid()
      ensures ok <==> ttype in old(callbacks)
      ensures ok ==> callbacks == old(callbacks)[ttype := old(callbacks)[ttype] + [func]]
      ensures !ok ==> callbacks == old(callbacks)
      ensures events == old(events) && simulationTime == old(simulationTime)
      ensures finishTime == old(finishTime) && finishEventExists == old(finishEventExists)
      ensures eventHandlerAttached == old(eventHandlerAttached) && calls == old(calls)
    {
      ok := ttype in callbacks;
      if ok {
        callbacks := callbacks[ttype := callbacks[ttype] + [func]];
      }
    }

    /** Invokes the start callbacks. */
    method NotifyStart()
      requires Valid()
      modifies this
      ensures Valid() && OnlyCallsChanged()
      ensures calls == old(calls) + Calls(callbacks[START_CALLBACK], StartNotice)
    {
      var cbs := callbacks[START_CALLBACK];
      for i := 0 to |cbs|
        invariant OnlyCallsChanged()
        invariant calls == old(calls) + Calls(cbs[..i], StartNotice)
      {
        assert Calls(cbs[..i + 1], StartNotice) == Calls(cbs[..i], StartNotice) + [Call(cbs[i], StartNotice)];
        calls := calls + [Call(cbs[i], StartNotice)];
      }
      assert cbs[..|cbs|] == cbs;
    }

    /** Invokes the stop callbacks. */
    method NotifyStop()
      requires Valid()
      modifies this
      ensures Valid() && OnlyCallsChanged()
      ensures calls == old(calls) + Calls(callbacks[STOP_CALLBACK], StopNotice)
    {
      var cbs := callbacks[STOP_CALLBACK];
      for i := 0 to |cbs|
        invariant OnlyCallsChanged()
        invariant calls == old(calls) + Calls(cbs[..i], StopNotice)
      {
        assert Calls(cbs[..i + 1], StopNotice) == Calls(cbs[..i], StopNotice) + [Call(cbs[i], StopNotice)];
        calls := calls + [Call(cbs[i], StopNotice)];
      }
      assert cbs[..|cbs|] == cbs;
    }

    /** Invokes the event callbacks with `e`; they observe the current clock. */
    method NotifyEvent(e: Event)
      requires Valid()
      modifies this
      ensures Valid() && OnlyCallsChanged()
      ensures calls == old(calls) + Calls(callbacks[EVENT_CALLBACK], EventNotice(e, simulationTime))
    {
      var cbs := callbacks[EVENT_CALLBACK];
      var notice := EventNotice(e, simulationTime);
      for i := 0 to |cbs|
        invariant OnlyCallsChanged()
        invariant calls == old(calls) + Calls(cbs[..i], notice)
      {
        assert Calls(cbs[..i + 1], notice) == Calls(cbs[..i], notice) + [Call(cbs[i], notice)];
        calls := calls + [Call(cbs[i], notice)];
      }
      assert cbs[..|cbs|] == cbs;
    }

    /** One step of the main loop before notification: pop the tail and advance the clock to it. */
    method PopImminent() returns (imminent: Event)
      requires Valid() && events != []
      modifies this
      ensures Valid()
      ensures imminent == old(events)[|old(events)| - 1]
      ensures events == old(events)[..|old(events)| - 1]
      ensures simulationTime == imminent.time
      ensures NonIncreasing(old(events)) ==> forall x :: x in old(events) ==> imminent.time <= x.time
      ensures finishTime == old(finishTime) && finishEventExists == old(finishEventExists)
      ensures callbacks == old(callbacks) && eventHandlerAttached == old(eventHandlerAttached)
      ensures calls == old(calls)
    {
      ghost var before := events;
      imminent := events[|events| - 1];
      events := events[..|events| - 1];
      simulationTime := imminent.time;
      if NonIncreasing(before) {
        forall x | x in before ensures imminent.time <= x.time {
          LastIsMinimum(before, x);
        }
      }
    }

    /**
     * The loop of the traversal: pop the tail, advance the clock to it and
     * notify, until the list is empty.
     */
    method DrainEvents()
      requires Valid()
      modifies this
      ensures Valid()
      ensures events == []
      ensures calls == old(calls) + DrainCalls(old(events), callbacks[EVENT_CALLBACK])
      ensures simulationTime == if old(events) == [] then old(simulationTime) else old(events)[0].time
      ensures finishTime == old(finishTime) && finishEventExists == old(finishEventExists)
      ensures callbacks == old(callbacks) && eventHandlerAttached == old(eventHandlerAttached)
    {
      var cbs := callbacks[EVENT_CALLBACK];
      while |events| > 0
        invariant Valid()
        invariant |events| <= |old(events)| && events == old(events)[..|events|]
        invariant calls + DrainCalls(events, cbs) == old(calls) + DrainCalls(old(events), cbs)
        invariant simulationTime
               == if |events| == |old(events)| then old(simulationTime) else old(events)[|events|].time
        invariant finishTime == old(finishTime) && finishEventExists == old(finishEventExists)
        invariant callbacks == old(callbacks) && eventHandlerAttached == old(eventHandlerAttached)
        decreases |events|
      {
        ghost var before := calls;
        PrefixPop(old(events), |events|);
        DrainStep(events, cbs);
        var imminent := PopImminent();
        NotifyEvent(imminent);
        Associative(before, Calls(cbs, EventNotice(imminent, imminent.time)), DrainCalls(events, cbs));
      }
    }

    /**
     * The traversal of the event list: every event is popped from the tail
     * and dispatched, so the list goes out in reverse order, which is
     * ascending time when the list was non-increasing.
     */
    method DispatchAll()
      requires Valid()
      modifies this
      ensures Valid()
      ensures events == []
      ensures calls == old(calls) + DrainCalls(old(events), callbacks[EVENT_CALLBACK])
      ensures calls == old(calls) + DispatchCalls(Reverse(old(events)), callbacks[EVENT_CALLBACK])
      ensures NonIncreasing(old(events)) ==> Ascending(Reverse(old(events)))
      ensures simulationTime == if old(events) == [] then old(simulationTime) else old(events)[0].time
      ensures finishTime == old(finishTime) && finishEventExists == old(finishEventExists)
      ensures callbacks == old(callbacks) && eventHandlerAttached == old(eventHandlerAttached)
    {
      ghost var queued := events;
      DrainEvents();
      DrainIsReverseDispatch(queued, callbacks[EVENT_CALLBACK]);
      if NonIncreasing(queued) {
        NonIncreasingReversed(queued);
      }
    }

    /**
     * The main loop without the handler check: notify start, dispatch every
     * event from the tail, notify stop. Events leave in reverse list order
     * (RunDispatchesReversed), so a list kept non-increasing by schedule is
     * dispatched in ascending time.
     */
    method Run()
      requires Valid()
      modifies this
      ensures Valid()
      ensures events == []
      ensures calls == old(calls) + RunCalls(old(callbacks), old(events))
      ensures NonIncreasing(old(events)) ==> Ascending(Reverse(old(events)))
      ensures simulationTime == if old(events) == [] then old(simulationTime) else old(events)[0].time
      ensures finishTime == old(finishTime) && finishEventExists == old(finishEventExists)
      ensures callbacks == old(callbacks) && eventHandlerAttached == old(eventHandlerAttached)
    {
      NotifyStart();
      ghost var started := calls;
      DispatchAll();
      ghost var drained := calls;
      NotifyStop();
      ghost var startCalls := Calls(callbacks[START_CALLBACK], StartNotice);
      ghost var eventCalls := DrainCalls(old(events), callbacks[EVENT_CALLBACK]);
      ghost var stopCalls := Calls(callbacks[STOP_CALLBACK], StopNotice);
      Associative(old(calls), startCalls, eventCalls);
      Associative(old(calls), startCalls + eventCalls, stopCalls);
    }

    /** Raises "No EventHandler attached!" before any callback unless a handler is attached; then runs. */
    method Start() returns (r: Outcome<string>)
      requires Valid()
      modifies this
      ensures Valid()
      ensures r == if old(eventHandlerAttached) then Pass else Fail(NO_HANDLER_MESSAGE)
      ensures !old(eventHandlerAttached) ==> events == old(events) && calls == old(calls)
      ensures !old(eventHandlerAttached) ==> simulationTime == old(simulationTime)
      ensures old(eventHandlerAttached) ==> events == [] && calls == old(calls) + RunCalls(old(callbacks), old(events))
      ensures old(eventHandlerAttached) && old(events) != [] ==> simulationTime == old(events)[0].time
      ensures finishTime == old(finishTime) && finishEventExists == old(finishEventExists)
      ensures callbacks == old(callbacks) && eventHandlerAttached == old(eventHandlerAttached)
    {
      if !eventHandlerAttached {
        return Fail(NO_HANDLER_MESSAGE);
      }
      Run();
      return Pass;
    }
  }
}
