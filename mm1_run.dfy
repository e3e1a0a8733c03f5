/**
 * The engine's start loop with the M/M/1 handler as its only callbacks:
 * the start callback schedules the first arrival, every popped event goes to
 * the handler, and the stop callback computes the delays. Termination over
 * reals is not guaranteed (draws may be arbitrarily small), so the loop
 * handles at most one event per supplied pair of draws.
 */
module MM1Run {
  import opened Wrappers
  import opened Events
  import opened EventOrder
  import opened Engine
  import opened MM1

  /** The two exponential draws available to the handler for one event. */
  datatype Draw = Draw(interarrival: real, service: real)

  /** No event on the list lies before `clock`. */
  ghost predicate NotBefore(s: seq<Event>, clock: real)
  {
    forall i :: 0 <= i < |s| ==> s[i].time >= clock
  }

  /**
   * The queue's invariant at `clock`: customers present are arrivals minus
   * departures and never negative, the server is busy exactly when someone
   * is present, every arrival lies in the past, and each departure is no
   * earlier than the arrival it is paired with.
   */
  ghost predicate QueueInv(st: QueueState, clock: real)
  {
    && st.queueLength == |st.arrivals| - |st.departures|
    && st.queueLength >= 0
    && (st.isProcessing <==> st.queueLength > 0)
    && (forall i :: 0 <= i < |st.arrivals| ==> st.arrivals[i] <= clock)
    && (forall i :: 0 <= i < |st.departures| ==> st.arrivals[i] <= st.departures[i])
  }

  /**
   * The whole system's invariant: the list is ordered for `pop()`, nothing is
   * scheduled in the past, and at most one Departure is pending, only while
   * the server is busy.
   */
  ghost predicate SystemInv(s: seq<Event>, clock: real, st: QueueState)
  {
    && NonIncreasing(s)
    && NotBefore(s, clock)
    && QueueInv(st, clock)
    && CountKind(s, DEPARTURE_EVENT) <= 1
    && (CountKind(s, DEPARTURE_EVENT) == 1 ==> st.isProcessing)
  }

  /** Scheduling an event no earlier than `clock` keeps the list ordered and adds one to its kind if admitted. */
  lemma AdmitKeepsOrder(s: seq<Event>, finishTime: real, e: Event, clock: real, kind: string)
    requires NonIncreasing(s) && NotBefore(s, clock) && e.time >= clock
    ensures NonIncreasing(Admit(s, finishTime, e)) && NotBefore(Admit(s, finishTime, e), clock)
    ensures CountKind(Admit(s, finishTime, e), kind)
         == CountKind(s, kind) + (if e.time < finishTime && e.identifier == kind then 1 else 0)
  {
    if e.time < finishTime {
      RescheduledNotBefore(s, e, clock);
      RescheduledCount(s, e, kind);
    }
  }

  /** Rescheduling keeps a lower bound on event times that the new event also meets. */
  lemma RescheduledNotBefore(s: seq<Event>, e: Event, clock: real)
    requires NotBefore(s, clock) && e.time >= clock
    ensures NotBefore(Rescheduled(s, e), clock)
  {
    var r := Rescheduled(s, e);
    assert multiset(r) == multiset(s + [e]);
    forall i | 0 <= i < |r| ensures r[i].time >= clock {
      assert r[i] in multiset(s + [e]);
      if r[i] != e {
        var k :| 0 <= k < |s| && s[k] == r[i];
      }
    }
  }

  /** Rescheduling adds one to the count of the new event's kind and leaves the others alone. */
  lemma RescheduledCount(s: seq<Event>, e: Event, kind: string)
    ensures CountKind(Rescheduled(s, e), kind) == CountKind(s, kind) + (if e.identifier == kind then 1 else 0)
  {
    var r := Rescheduled(s, e);
    assert multiset(r) == multiset(s + [e]);
    CountKindPermutation(r, s + [e], kind);
    CountKindAppend(s, [e], kind);
    assert CountKind([e], kind) == if e.identifier == kind then 1 else 0;
  }

  /** Popping the tail of an ordered list moves the clock forward and keeps the rest ordered. */
  lemma PopKeepsOrder(s: seq<Event>, clock: real)
    requires s != [] && NonIncreasing(s) && NotBefore(s, clock)
    ensures s[|s| - 1].time >= clock
    ensures NonIncreasing(s[..|s| - 1]) && NotBefore(s[..|s| - 1], s[|s| - 1].time)
    ensures CountKind(s, DEPARTURE_EVENT)
         == CountKind(s[..|s| - 1], DEPARTURE_EVENT) + (if s[|s| - 1].identifier == DEPARTURE_EVENT then 1 else 0)
  {
    CountKindDropLast(s, DEPARTURE_EVENT);
  }

  /** The list after handling an event at time `t` stays ordered, and gains a Departure only if the reaction schedules one. */
  lemma EventsAfterStep(rest: seq<Event>, finishTime: real, e: Event, interarrivalGap: real, serviceGap: real, r: Reaction)
    requires NonIncreasing(rest) && NotBefore(rest, e.time)
    requires interarrivalGap >= 0.0 && serviceGap >= 0.0
    ensures var after := ScheduledAfter(rest, finishTime, e, interarrivalGap, serviceGap, r);
            && NonIncreasing(after) && NotBefore(after, e.time)
            && CountKind(after, DEPARTURE_EVENT)
               <= CountKind(rest, DEPARTURE_EVENT) + (if r.scheduleDeparture then 1 else 0)
  {
    var arrival := GenerateArrivalEvent(e.time, interarrivalGap);
    var departure := GenerateDepartureEvent(e.time, serviceGap);
    var withArrival := if r.scheduleArrival then Admit(rest, finishTime, arrival) else rest;
    AdmitKeepsOrder(rest, finishTime, arrival, e.time, DEPARTURE_EVENT);
    AdmitKeepsOrder(withArrival, finishTime, departure, e.time, DEPARTURE_EVENT);
  }

  /** Handling an event no earlier than `clock` keeps the queue invariant, provided a Departure finds a busy server. */
  lemma QueueAfterStep(st: QueueState, clock: real, e: Event)
    requires QueueInv(st, clock) && e.time >= clock
    requires e.identifier == DEPARTURE_EVENT ==> st.isProcessing
    ensures QueueInv(React(st, e).next, e.time)
  {
    var n := React(st, e).next;
    var t := e.time;
    forall i | 0 <= i < |n.arrivals| ensures n.arrivals[i] <= t {
      if i < |st.arrivals| { assert n.arrivals[i] == st.arrivals[i]; }
    }
    forall i | 0 <= i < |n.departures| ensures n.arrivals[i] <= n.departures[i] {
      if i < |st.departures| {
        assert n.departures[i] == st.departures[i];
      } else {
        assert n.departures[i] == t && n.arrivals[i] == st.arrivals[i];
      }
    }
  }

  /** Handling the imminent event keeps the system invariant, the clock now at that event's time. */
  lemma StepPreservesInv(s: seq<Event>, clock: real, st: QueueState, finishTime: real,
                         interarrivalGap: real, serviceGap: real)
    requires SystemInv(s, clock, st) && s != []
    requires interarrivalGap >= 0.0 && serviceGap >= 0.0
    ensures var e := s[|s| - 1];
            var r := React(st, e);
            SystemInv(ScheduledAfter(s[..|s| - 1], finishTime, e, interarrivalGap, serviceGap, r), e.time, r.next)
  {
    var e := s[|s| - 1];
    var rest := s[..|s| - 1];
    var r := React(st, e);
    PopKeepsOrder(s, clock);
    EventsAfterStep(rest, finishTime, e, interarrivalGap, serviceGap, r);
    QueueAfterStep(st, clock, e);
  }

  /** The start callback keeps the system invariant. */
  lemma StartPreservesInv(s: seq<Event>, clock: real, st: QueueState, finishTime: real, gap: real)
    requires SystemInv(s, clock, st) && gap >= 0.0
    ensures SystemInv(Admit(s, finishTime, GenerateArrivalEvent(clock, gap)), clock, st)
  {
    AdmitKeepsOrder(s, finishTime, GenerateArrivalEvent(clock, gap), clock, DEPARTURE_EVENT);
  }

  /** Under the queue invariant every reported delay is non-negative. */
  lemma DelaysNonNegative(st: QueueState, clock: real)
    requires QueueInv(st, clock)
    ensures var d := Delays(st.arrivals, st.departures);
            d.Some? ==> forall i :: 0 <= i < |d.value| ==> d.value[i] >= 0.0
  {
  }

  /** An engine stopped at a non-negative horizon before the run, with a fresh handler, meets the invariant. */
  lemma InitialInv(finishTime: real)
    requires finishTime >= 0.0
    ensures SystemInv([EndEvent(finishTime)], 0.0, QueueState(0, false, [], []))
  {
    assert CountKind([EndEvent(finishTime)], DEPARTURE_EVENT) == 0;
  }

  /**
   * One iteration of the main loop: pop the imminent event, advance the
   * clock to it and hand it to the handler with one pair of draws.
   */
  method Step(h: MM1EventHandler, draw: Draw)
    requires h.engine.Valid() && SystemInv(h.engine.events, h.engine.simulationTime, h.State())
    requires h.engine.events != []
    requires draw.interarrival >= 0.0 && draw.service >= 0.0
    modifies h, h.engine
    ensures h.engine.Valid() && SystemInv(h.engine.events, h.engine.simulationTime, h.State())
    ensures h.engine.finishTime == old(h.engine.finishTime) && h.engine.finishEventExists == old(h.engine.finishEventExists)
    ensures h.engine.callbacks == old(h.engine.callbacks) && h.engine.calls == old(h.engine.calls)
    ensures h.engine.eventHandlerAttached == old(h.engine.eventHandlerAttached)
    ensures h.interarrivalRate == old(h.interarrivalRate) && h.serviceRate == old(h.serviceRate)
    ensures var e := old(h.engine.events)[|old(h.engine.events)| - 1];
            && h.engine.simulationTime == e.time >= old(h.engine.simulationTime)
            && h.State() == React(old(h.State()), e).next
            && h.engine.events == ScheduledAfter(old(h.engine.events)[..|old(h.engine.events)| - 1],
                                                 old(h.engine.finishTime), e, draw.interarrival, draw.service,
                                                 React(old(h.State()), e))
  {
    var engine := h.engine;
    ghost var s := engine.events;
    ghost var st := h.State();
    StepPreservesInv(s, engine.simulationTime, st, engine.finishTime, draw.interarrival, draw.service);
    PopKeepsOrder(s, engine.simulationTime);
    var imminent := engine.PopImminent();
    assert imminent == s[|s| - 1] && engine.events == s[..|s| - 1] && h.State() == st;
    h.HandleEvent(imminent, draw.interarrival, draw.service);
  }

  /**
   * Runs the simulation: the handler's start callback, then the main loop
   * with the handler's event callback (one pair of draws per event), then,
   * if the list emptied, the stop callback. `finished` says the list emptied
   * within the supplied draws.
   */
  method Run(h: MM1EventHandler, firstGap: real, draws: seq<Draw>) returns (finished: bool, delays: Option<seq<real>>)
    requires h.engine.Valid() && SystemInv(h.engine.events, h.engine.simulationTime, h.State())
    requires firstGap >= 0.0
    requires forall i :: 0 <= i < |draws| ==> draws[i].interarrival >= 0.0 && draws[i].service >= 0.0
    modifies h, h.engine
    ensures h.engine.Valid()
    ensures h.engine.simulationTime >= old(h.engine.simulationTime)
    ensures finished <==> h.engine.events == []
    ensures !finished ==> delays == None && SystemInv(h.engine.events, h.engine.simulationTime, h.State())
    ensures finished && delays.Some? ==> forall i :: 0 <= i < |delays.value| ==> delays.value[i] >= 0.0
  {
    var engine := h.engine;
    StartPreservesInv(engine.events, engine.simulationTime, h.State(), engine.finishTime, firstGap);
    h.HandleStart(firstGap);
    var k := 0;
    while |engine.events| > 0 && k < |draws|
      invariant 0 <= k <= |draws|
      invariant engine.Valid() && SystemInv(engine.events, engine.simulationTime, h.State())
      invariant engine.simulationTime >= old(engine.simulationTime)
      decreases |draws| - k
    {
      Step(h, draws[k]);
      k := k + 1;
    }
    finished := |engine.events| == 0;
    if finished {
      DelaysNonNegative(h.State(), engine.simulationTime);
      delays := h.HandleStop();
    } else {
      delays := None;
    }
  }
}
