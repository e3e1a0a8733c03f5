/**
 * The M/M/1 queue handler: a single server fed by self-renewing arrivals.
 * Exponential draws are supplied by the caller as plain reals (`gap`
 * parameters); an arrival or departure is scheduled at `base + gap`.
 */
module MM1 {
  import opened Wrappers
  import opened Events
  import opened Engine

  /** Identifiers of the handled events. */
  const ARRIVAL_EVENT: string := "Arrival"
  const DEPARTURE_EVENT: string := "Departure"

  /** Names under which the handler registers its callbacks. */
  const HANDLE_START: Callback := "_handle_start"
  const HANDLE_STOP: Callback := "_handle_stop"
  const HANDLE_EVENT: Callback := "_handle_event"

  /** The next arrival, `gap` (an interarrival draw) after `baseTime`. */
  function GenerateArrivalEvent(baseTime: real, gap: real): (e: Event)
    ensures e.identifier == ARRIVAL_EVENT && e.time == baseTime + gap && e.kwargs == map[]
  {
    Plain(ARRIVAL_EVENT, baseTime + gap)
  }

  /** The next departure, `gap` (a service draw) after `baseTime`. */
  function GenerateDepartureEvent(baseTime: real, gap: real): (e: Event)
    ensures e.identifier == DEPARTURE_EVENT && e.time == baseTime + gap && e.kwargs == map[]
  {
    Plain(DEPARTURE_EVENT, baseTime + gap)
  }

  /** The queue's counters and logs. */
  datatype QueueState = QueueState(queueLength: int, isProcessing: bool, arrivals: seq<real>, departures: seq<real>)

  /** The state after one event, and which events handling it schedules. */
  datatype Reaction = Reaction(next: QueueState, scheduleArrival: bool, scheduleDeparture: bool)

  /**
   * Handling one event: an Arrival joins the queue, is logged and renews the
   * arrival stream; a Departure leaves, is logged and frees the server; any
   * other event changes nothing. Then an idle server with a waiting customer
   * starts a service, which schedules a Departure and makes it busy.
   */
  function React(st: QueueState, event: Event): (r: Reaction)
    ensures r.next.queueLength - |r.next.arrivals| + |r.next.departures|
         == st.queueLength - |st.arrivals| + |st.departures|
    ensures r.scheduleArrival <==> event.identifier == ARRIVAL_EVENT
    ensures event.identifier == ARRIVAL_EVENT
         ==> (r.next.queueLength == st.queueLength + 1 && r.next.arrivals == st.arrivals + [event.time]
              && r.next.departures == st.departures)
    ensures event.identifier == DEPARTURE_EVENT
         ==> (r.next.queueLength == st.queueLength - 1 && r.next.departures == st.departures + [event.time]
              && r.next.arrivals == st.arrivals)
    ensures r.scheduleDeparture <==> (event.identifier == DEPARTURE_EVENT || !st.isProcessing) && r.next.queueLength > 0
    ensures r.scheduleDeparture ==> r.next.isProcessing && r.next.queueLength > 0
    ensures r.next.isProcessing <==> r.scheduleDeparture || (st.isProcessing && event.identifier != DEPARTURE_EVENT)
    ensures r.scheduleDeparture ==> event.identifier == DEPARTURE_EVENT || !st.isProcessing
    ensures event.identifier == ARRIVAL_EVENT && st.isProcessing ==> r.next.isProcessing && !r.scheduleDeparture
    ensures event.identifier == DEPARTURE_EVENT && st.queueLength == 1 ==> !r.next.isProcessing
    ensures event.identifier != ARRIVAL_EVENT && event.identifier != DEPARTURE_EVENT
         ==> (r.next.queueLength == st.queueLength && r.next.arrivals == st.arrivals
              && r.next.departures == st.departures)
    ensures (st.isProcessing <==> st.queueLength > 0) ==> (r.next.isProcessing <==> r.next.queueLength > 0)
  {
    var isArrival := event.identifier == ARRIVAL_EVENT;
    var isDeparture := event.identifier == DEPARTURE_EVENT;
    var queueLength := st.queueLength + (if isArrival then 1 else 0) - (if isDeparture then 1 else 0);
    var arrivals := if isArrival then st.arrivals + [event.time] else st.arrivals;
    var departures := if isDeparture then st.departures + [event.time] else st.departures;
    var busy := if isDeparture then false else st.isProcessing;
    var serve := !busy && queueLength > 0;
    Reaction(QueueState(queueLength, busy || serve, arrivals, departures), isArrival, serve)
  }

  /** The engine's event list after handling `event` with reaction `r`: the arrival first, then the departure. */
  function ScheduledAfter(s: seq<Event>, finishTime: real, event: Event,
                          interarrivalGap: real, serviceGap: real, r: Reaction): seq<Event>
  {
    var withArrival :=
      if r.scheduleArrival then Admit(s, finishTime, GenerateArrivalEvent(event.time, interarrivalGap)) else s;
    if r.scheduleDeparture then Admit(withArrival, finishTime, GenerateDepartureEvent(event.time, serviceGap))
    else withArrival
  }

  /** `ScheduledAfter` step by step: the list after the arrival, then after the departure. */
  lemma ScheduledAfterSteps(s: seq<Event>, finishTime: real, event: Event, interarrivalGap: real,
                            serviceGap: real, r: Reaction, withArrival: seq<Event>, result: seq<Event>)
    requires withArrival
          == if r.scheduleArrival then Admit(s, finishTime, GenerateArrivalEvent(event.time, interarrivalGap)) else s
    requires result
          == if r.scheduleDeparture then Admit(withArrival, finishTime, GenerateDepartureEvent(event.time, serviceGap))
             else withArrival
    ensures ScheduledAfter(s, finishTime, event, interarrivalGap, serviceGap, r) == result
  {
  }

  /** Python's `map(lambda x, y: x - y, xs, ys)`: positional differences, stopping at the shorter list. */
  function PairwiseDifference(xs: seq<real>, ys: seq<real>): (r: seq<real>)
    ensures |r| == if |xs| <= |ys| then |xs| else |ys|
    ensures forall i :: 0 <= i < |r| ==> r[i] == xs[i] - ys[i]
  {
    if xs == [] || ys == [] then [] else [xs[0] - ys[0]] + PairwiseDifference(xs[1..], ys[1..])
  }

  /** The logs after the end-of-run truncation: the longer one is cut to the shorter one's length. */
  function Truncated(arrivals: seq<real>, departures: seq<real>): (r: (seq<real>, seq<real>))
    ensures |r.0| == |r.1| <= |arrivals| && |r.1| <= |departures|
    ensures |r.0| == |arrivals| || |r.1| == |departures|
    ensures r.0 == arrivals[..|r.0|] && r.1 == departures[..|r.1|]
  {
    if |arrivals| >= |departures| then (arrivals[..|departures|], departures)
    else (arrivals, departures[..|arrivals|])
  }

  /**
   * The per-customer delays reported at stop: unavailable when either log is
   * empty, otherwise departure minus arrival, paired by position.
   */
  function Delays(arrivals: seq<real>, departures: seq<real>): (r: Option<seq<real>>)
    ensures r.None? <==> arrivals == [] || departures == []
    ensures r.Some? ==> |r.value| == (if |arrivals| <= |departures| then |arrivals| else |departures|)
    ensures r.Some? ==> forall i :: 0 <= i < |r.value| ==> r.value[i] == departures[i] - arrivals[i]
  {
    if |arrivals| == 0 || |departures| == 0 then None
    else
      var logs := Truncated(arrivals, departures);
      Some(PairwiseDifference(logs.1, logs.0))
  }

  class MM1EventHandler {
    const engine: SimulationEngine
    /** Rate parameters; the model takes the draws they govern as inputs. */
    var interarrivalRate: real
    var serviceRate: real
    var queueLength: int
    var isProcessing: bool
    var arrivals: seq<real>
    var departures: seq<real>

    function State(): QueueState
      reads this
    {
      QueueState(queueLength, isProcessing, arrivals, departures)
    }

    /** An empty, idle queue whose three callbacks are registered with `engine`. */
    constructor (engine: SimulationEngine)
      requires engine.Valid()
      modifies engine
      ensures this.engine == engine && engine.Valid()
      ensures interarrivalRate == 0.0 && serviceRate == 0.0
      ensures queueLength == 0 && !isProcessing && arrivals == [] && departures == []
      ensures engine.callbacks == old(engine.callbacks)
        [START_CALLBACK := old(engine.callbacks)[START_CALLBACK] + [HANDLE_START]]
        [STOP_CALLBACK := old(engine.callbacks)[STOP_CALLBACK] + [HANDLE_STOP]]
        [EVENT_CALLBACK := old(engine.callbacks)[EVENT_CALLBACK] + [HANDLE_EVENT]]
      ensures engine.events == old(engine.events) && engine.simulationTime == old(engine.simulationTime)
      ensures engine.finishTime == old(engine.finishTime) && engine.finishEventExists == old(engine.finishEventExists)
      ensures engine.eventHandlerAttached == old(engine.eventHandlerAttached) && engine.calls == old(engine.calls)
    {
      this.engine := engine;
      interarrivalRate := 0.0;
      serviceRate := 0.0;
      queueLength := 0;
      isProcessing := false;
      arrivals := [];
      departures := [];
      new;
      var ok := engine.RegisterCallback(HANDLE_START, START_CALLBACK);
      ok := engine.RegisterCallback(HANDLE_STOP, STOP_CALLBACK);
      ok := engine.RegisterCallback(HANDLE_EVENT, EVENT_CALLBACK);
    }

    /** Everything of the engine but its event list is as before. */
    twostate predicate OnlyEventsChanged()
      reads engine
    {
      && engine.simulationTime == old(engine.simulationTime) && engine.finishTime == old(engine.finishTime)
      && engine.finishEventExists == old(engine.finishEventExists) && engine.callbacks == old(engine.callbacks)
      && engine.eventHandlerAttached == old(engine.eventHandlerAttached) && engine.calls == old(engine.calls)
    }

    /** Schedules the next arrival, `gap` after `baseTime`. */
    method ScheduleArrivalEvent(baseTime: real, gap: real)
      requires engine.Valid()
      modifies engine
      ensures engine.Valid() && OnlyEventsChanged()
      ensures engine.events == Admit(old(engine.events), engine.finishTime, GenerateArrivalEvent(baseTime, gap))
    {
      var event := GenerateArrivalEvent(baseTime, gap);
      var _ := engine.Schedule(event);
    }

    /** Schedules the next departure, `gap` after `baseTime`, and marks the server busy. */
    method ScheduleDepartureEvent(baseTime: real, gap: real)
      requires engine.Valid()
      modifies engine, this
      ensures engine.Valid() && OnlyEventsChanged()
      ensures engine.events == Admit(old(engine.events), engine.finishTime, GenerateDepartureEvent(baseTime, gap))
      ensures isProcessing
      ensures queueLength == old(queueLength) && arrivals == old(arrivals) && departures == old(departures)
      ensures interarrivalRate == old(interarrivalRate) && serviceRate == old(serviceRate)
    {
      var event := GenerateDepartureEvent(baseTime, gap);
      var _ := engine.Schedule(event);
      isProcessing := true;
    }

    /** The start callback: the first arrival comes `gap` after the engine's current time. */
    method HandleStart(gap: real)
      requires engine.Valid()
      modifies engine
      ensures engine.Valid() && OnlyEventsChanged()
      ensures engine.events
           == Admit(old(engine.events), engine.finishTime, GenerateArrivalEvent(engine.simulationTime, gap))
    {
      ScheduleArrivalEvent(engine.simulationTime, gap);
    }

    /**
     * The event callback. `interarrivalGap` is the draw used if an arrival is
     * scheduled, `serviceGap` the one used if a departure is.
     */
    method HandleEvent(event: Event, interarrivalGap: real, serviceGap: real)
      requires engine.Valid()
      modifies this, engine
      ensures engine.Valid() && OnlyEventsChanged()
      ensures State() == React(old(State()), event).next
      ensures engine.events == ScheduledAfter(old(engine.events), engine.finishTime, event,
                                              interarrivalGap, serviceGap, React(old(State()), event))
      ensures interarrivalRate == old(interarrivalRate) && serviceRate == old(serviceRate)
    {
      ghost var r := React(State(), event);
      ghost var initial := engine.events;
      ghost var finishTime := engine.finishTime;
      if event.identifier == ARRIVAL_EVENT {
        queueLength := queueLength + 1;
        arrivals := arrivals + [event.time];
        ScheduleArrivalEvent(event.time, interarrivalGap);
      }
      if event.identifier == DEPARTURE_EVENT {
        queueLength := queueLength - 1;
        departures := departures + [event.time];
        isProcessing := false;
      }
      ghost var withArrival := engine.events;
      assert r.scheduleDeparture == (!isProcessing && queueLength > 0);
      if !isProcessing && queueLength > 0 {
        ScheduleDepartureEvent(event.time, serviceGap);
      }
      ScheduledAfterSteps(initial, finishTime, event, interarrivalGap, serviceGap, r, withArrival, engine.events);
    }

    /**
     * The stop callback's computation: truncate the longer log and return the
     * delays, or None (statistics unavailable) when either log is empty.
     */
    method HandleStop() returns (delays: Option<seq<real>>)
      modifies this
      ensures delays == Delays(old(arrivals), old(departures))
      ensures old(arrivals) == [] || old(departures) == []
           ==> arrivals == old(arrivals) && departures == old(departures)
      ensures old(arrivals) != [] && old(departures) != []
           ==> (arrivals, departures) == Truncated(old(arrivals), old(departures))
      ensures queueLength == old(queueLength) && isProcessing == old(isProcessing)
      ensures interarrivalRate == old(interarrivalRate) && serviceRate == old(serviceRate)
    {
      if |arrivals| == 0 || |departures| == 0 {
        delays := None;
      } else {
        if |arrivals| >= |departures| {
          arrivals := arrivals[..|departures|];
        } else {
          departures := departures[..|arrivals|];
        }
        delays := Some(PairwiseDifference(departures, arrivals));
      }
    }
  }
}
