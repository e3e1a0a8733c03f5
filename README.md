# A discrete-event simulation engine and its M/M/1 queue, in Dafny

This project models the kernel of a small Python discrete-event simulation
(DES) platform and proves properties of it:

- **The simulation engine** keeps a future event list, a Python list. Every
  admitted `schedule` leaves it in non-increasing time order, with the
  imminent event at the tail. `stop` appends `End` without sorting, so the
  order can break. Before `stop` the horizon is 0, so an event at time -1 is
  admitted. A following `stop(10)` leaves `[X@-1, End@10]`, and `start` then
  dispatches End first and moves the clock from 10 back to -1
  (`Scenarios.NegativeQueued`, `Scenarios.NegativeDispatchedLast`).
  The engine also has a clock, a one-shot horizon set by `stop`, and a
  dictionary that maps each callback type (`start`, `stop`, `event`) to the
  functions registered under it, in registration order.
  - `schedule` admits an event only when it occurs before the horizon. The
    horizon starts at 0. An admitted event is appended, the list is stably
    sorted by time and then reversed.
  - `stop` appends the `End` event, and only on its first call.
  - `start` notifies the start callbacks. It then pops the tail until the list
    is empty, setting the clock to each popped event's time and notifying the
    event callbacks. Finally it notifies the stop callbacks.
  - The three engine variants (`simulator/modules/sim.py`, `sim.py`,
    `SimulationEngine/SimulationEngine.py`) share the event list, clock,
    horizon, End flag and callback dictionary, and the same `stop`,
    `schedule`, `register_callback`, notify methods and main loop. They differ
    elsewhere: `SimulationEngine/SimulationEngine.py` has no PRNG, and only
    `simulator/modules/sim.py` has an `event_handler` field and checks that a
    handler is attached before it starts.
    `Engine.SimulationEngine.Run` is the unchecked loop of the other two.
    `Engine.SimulationEngine.Start` is the check followed by `Run`.
    The model table cites one variant per member. The same code is at
    sim.py:244-257 and SimulationEngine/SimulationEngine.py:87-100 (stop),
    sim.py:259-272 and SimulationEngine/SimulationEngine.py:102-115
    (schedule), and SimulationEngine/SimulationEngine.py:69-85 (the loop).
- **The M/M/1 handler** (`simulator/modules/mm1.py`, `des/mm1.py`) has three
  parts:
  - a queue counter, a busy flag, and logs of arrival and departure times;
  - an event step that reacts to `Arrival` and `Departure` and then starts a
    service when the server is idle and someone is waiting;
  - the delay computation done at stop.

  The two handler variants differ in their constructors
  (simulator/modules/mm1.py takes the engine as an argument, des/mm1.py uses
  the singleton engine), in their callback names (`handle_*` against
  `_handle_*`), and in simulator/modules/mm1.py's separate `_generate_*`
  helpers. Their event steps differ only in where the busy flag is set. In
  simulator/modules/mm1.py:68-72 `handle_event` sets it after scheduling the
  departure. In des/mm1.py:120-134 the departure scheduler sets it. The
  resulting state is the same, and the model follows des/mm1.py. The step
  (`MM1.React`) is simulator/modules/mm1.py:48-72 and des/mm1.py:82-104. The
  delay computation is simulator/modules/mm1.py:128-138 and
  des/mm1.py:140-150.
- **The early FIFO event list** (`EventList.py`) adds at the back and pops
  from the front.

Modules:

- `Events`: the event record.
- `EventOrder`: Python's stable `sort(key=time)`, `reverse()`, and orderedness.
- `Engine`: the engine class.
- `MM1`: the handler class and its pure step `React`.
- `MM1Run`: the engine's loop with the M/M/1 handler as its callbacks, and the
  system invariant the loop keeps.
- `EventLists`: the FIFO list.
- `Scenarios`: concrete runs as client methods. Most restate the
  repository's unit tests, and their postconditions are the tests'
  assertions. `DroppedBeforeStop`, `NegativeQueued`,
  `NegativeDispatchedLast`, `TieOrder` and the `Reschedule*` lemmas restate
  no test. They pin down the admission filter before `stop`, the unsorted
  `End`, and the order of tied events. The `EventList.py` tests build `Event(1)`, which does
  not match the two-argument constructor of `Event.py:30`. The scenarios
  take an arbitrary event instead.

How the model treats the environment:

- Callbacks are opaque names. Each invocation is appended to the engine's
  `calls` ledger, together with what the callback was told: start; an event
  and the clock at that moment; or stop.
- Exponential draws from the PRNG are parameters (non-negative reals).
- Python's exceptions become results:
  - `start` without a handler returns `Fail("No EventHandler attached!")` and
    changes nothing;
  - `register_callback` with an unknown type (a `KeyError`) returns
    `ok == false`;
  - `EventList.get`/`pop` out of range (an `IndexError`) return `None`.
- Python's numbers are Dafny `real`.

**Tie order.** The source comments the sort-then-reverse as sorting "in a
LIFO style" (simulator/modules/sim.py:239). The model follows the code, and
the code is not LIFO for ties. Python's sort is stable: equal-time events keep
their list order, and the reverse then flips them.

- When A and then B are scheduled at the same time, and B is the last event
  scheduled, A is dispatched first.
- Every later admitted schedule sorts and reverses the list again, which flips
  the relative order of every group of tied events already on it. A third
  event C at that time makes the order B, A, C. An earlier event D instead
  makes it D, B, A.

`Scenarios.TieOrder`, `Scenarios.RescheduleSecondTie`,
`Scenarios.RescheduleThirdTie` and `Scenarios.RescheduleFlipsTies` prove
this. What holds for every non-increasing list, so after any admitted
schedule or after `stop` on an empty list, is that the tail is an event of
minimum time (`EventOrder.LastIsMinimum`, `Engine.SimulationEngine.PopImminent`).

## Model

| member | source | states |
|---|---|---|
| Events.Plain | sim.py:88-120 | the event's identifier and time accessors return what it was built with; it has no keyword arguments |
| Events.CountKindPermutation | simulator/modules/sim.py:238-241 | rearranging the event list does not change how many events of each kind it holds |
| EventOrder.InsertByTime | simulator/modules/sim.py:240 | one step of the stable sort: the result holds exactly the inserted event plus the list's events |
| EventOrder.InsertByTimeAscending | simulator/modules/sim.py:240 | inserting into a time-ascending list gives a time-ascending list |
| EventOrder.SortByTime | simulator/modules/sim.py:240 | `sort(key=time)` returns a permutation of its input, in ascending time |
| EventOrder.Reverse | simulator/modules/sim.py:241 | `reverse()`: same length, position i holds the input's position n-1-i |
| EventOrder.ReversePermutes | simulator/modules/sim.py:241 | reversing keeps the same events |
| EventOrder.ReverseAscending | simulator/modules/sim.py:239-241 | a list is ascending in time exactly when its reverse is non-increasing |
| EventOrder.NonIncreasingReversed | simulator/modules/sim.py:239-241 | a list in non-increasing time, read from its tail, is in ascending time |
| EventOrder.LastIsMinimum | simulator/modules/sim.py:205 | the tail of a non-increasing list has the minimum time of the list |
| Engine.Calls | simulator/modules/sim.py:253-263 | notifying a callback list calls each callback exactly once, in registration order, with the same notice |
| Engine.DrainIsReverseDispatch | simulator/modules/sim.py:203-209 | popping the tail until empty dispatches the list in reverse order |
| Engine.RunDispatchesReversed | simulator/modules/sim.py:201-211 | a run's calls are the start calls, the event calls of the reversed list, then the stop calls; a non-increasing list is dispatched in ascending time |
| Engine.Rescheduled | simulator/modules/sim.py:238-241 | after an admitted schedule the list is a permutation of the old list plus the event, in non-increasing time |
| Engine.RescheduledAllBefore | simulator/modules/sim.py:236-241 | if every queued event and the new event lie before a bound, so does every event after rescheduling |
| Engine.HorizonPreserved | simulator/modules/sim.py:225 | with End at the head and all else before the horizon, an admitted event leaves End at the head and all else before the horizon |
| Engine.EndDispatchedLast | simulator/modules/sim.py:203-209 | a list in that shape dispatches End last, after every event before the horizon |
| Engine.SimulationEngine.constructor | simulator/modules/sim.py:173-190 | an empty list, clock 0, horizon 0, no End yet, three empty callback lists, no handler |
| Engine.SimulationEngine.AttachEventHandler | simulator/tests/sim.py:27 | assigning a handler sets only the handler flag |
| Engine.SimulationEngine.Stop | simulator/modules/sim.py:213-226 | the first call sets the horizon and appends exactly one End at it; later calls change nothing; stopping an empty list puts End at the head |
| Engine.SimulationEngine.Schedule | simulator/modules/sim.py:228-241 | admitted iff time < horizon; admitted: a non-increasing permutation of old plus event; rejected: nothing changes; before stop every event at time >= 0 is dropped; End stays at the head |
| Engine.SimulationEngine.RegisterCallback | sim.py:274-282 | appends the function to its type's list only; an unknown type is a KeyError and changes nothing |
| Engine.SimulationEngine.NotifyStart | simulator/modules/sim.py:253-257 | the ledger grows by one start call per start callback, in order; no other state changes |
| Engine.SimulationEngine.NotifyStop | simulator/modules/sim.py:259-263 | the ledger grows by one stop call per stop callback, in order; no other state changes |
| Engine.SimulationEngine.NotifyEvent | SimulationEngine/SimulationEngine.py:139-143 | the ledger grows by one call per event callback with the event and the current clock; no other state changes |
| Engine.SimulationEngine.PopImminent | simulator/modules/sim.py:204-207 | removes the tail, sets the clock to its time; on a non-increasing list that event has minimum time |
| Engine.SimulationEngine.DispatchAll | simulator/modules/sim.py:203-209 | the loop (run as the helper `DrainEvents`) pops until empty; the ledger grows by the event calls of dispatching the reversed list; a non-increasing list is dispatched in ascending time; the clock ends at the head's time |
| Engine.SimulationEngine.Run | sim.py:226-242 | start calls, then one batch of event calls per event in tail-first order, then stop calls; a non-increasing list is dispatched in ascending time; ends with an empty list |
| Engine.SimulationEngine.Start | simulator/modules/sim.py:192-211 | without a handler: the error message and nothing changed (no callback fired); with one: the full run |
| EventLists.EventList.constructor | EventList.py:32-37 | a new list is empty |
| EventLists.EventList.Add | EventList.py:39-43 | appends at the back; earlier entries are unchanged |
| EventLists.EventList.Get | EventList.py:45-49 | Python indexing (negative from the back); out of range is an IndexError; the list is unchanged |
| EventLists.EventList.Pop | EventList.py:51-55 | on a non-empty list returns and removes the front; on an empty one an IndexError and no change |
| MM1.GenerateArrivalEvent | simulator/modules/mm1.py:74-84 | an Arrival at base time plus the interarrival draw |
| MM1.GenerateDepartureEvent | simulator/modules/mm1.py:97-107 | a Departure at base time plus the service draw |
| MM1.React | simulator/modules/mm1.py:48-72 | an Arrival adds one to the queue and logs its time, leaving the departure log; a Departure removes one and logs its time, leaving the arrival log; an Arrival schedules an arrival, and only an Arrival does; a departure is scheduled exactly when, after that, the server is idle (a Departure, or not busy before) and the queue is non-empty, and then the server is busy; busy afterwards iff a departure was scheduled or it was busy and the event was not a Departure; other kinds change no counters or logs; busy iff non-empty is preserved |
| MM1.PairwiseDifference | simulator/modules/mm1.py:138 | `map` over two lists stops at the shorter one; each entry is the positional difference |
| MM1.Truncated | simulator/modules/mm1.py:134-137 | the longer log is cut to the shorter one's length; both are prefixes of the originals |
| MM1.Delays | simulator/modules/mm1.py:128-138 | nothing when either log is empty; otherwise min(arrivals, departures) delays, each a departure minus its arrival |
| MM1.MM1EventHandler.constructor | simulator/modules/mm1.py:18-34 | empty idle queue with empty logs; the three callbacks appended to the engine's lists, the engine otherwise unchanged |
| MM1.MM1EventHandler.ScheduleArrivalEvent | des/mm1.py:106-118 | schedules the next arrival with the engine; only the event list changes |
| MM1.MM1EventHandler.ScheduleDepartureEvent | des/mm1.py:120-134 | schedules the next departure and sets the busy flag |
| MM1.MM1EventHandler.HandleStart | des/mm1.py:70-74 | the first arrival is one draw after the engine's current time |
| MM1.MM1EventHandler.HandleEvent | des/mm1.py:82-104 | new queue state is the pure step's; the event list is the old one with the step's arrival, then its departure, scheduled |
| MM1.MM1EventHandler.HandleStop | des/mm1.py:136-150 | returns the delays of the old logs; the logs are truncated when both are non-empty; counters unchanged |
| MM1Run.AdmitKeepsOrder | simulator/modules/sim.py:236-241 | scheduling an event no earlier than the clock keeps the list non-increasing and not in the past, and adds one to its kind's count exactly when admitted |
| MM1Run.PopKeepsOrder | simulator/modules/sim.py:205-207 | the clock never moves back on a pop; the rest stays ordered and no earlier than the new clock |
| MM1Run.EventsAfterStep | des/mm1.py:87-104 | handling an event keeps the list ordered and in the future; it gains a Departure only if one is scheduled |
| MM1Run.QueueAfterStep | des/mm1.py:87-100 | handling an event keeps the queue invariant: length = arrivals - departures >= 0, busy iff non-empty, arrivals in the past, each departure after its arrival |
| MM1Run.StepPreservesInv | simulator/modules/sim.py:203-209 | one loop iteration with the handler keeps the system invariant (ordered list, nothing in the past, at most one pending Departure, and only while busy) |
| MM1Run.StartPreservesInv | des/mm1.py:70-74 | the start callback keeps the system invariant |
| MM1Run.DelaysNonNegative | des/mm1.py:146-150 | under the queue invariant every reported delay is >= 0 |
| MM1Run.InitialInv | simulator/modules/sim.py:213-226 | a fresh handler with only End queued at a non-negative horizon meets the system invariant |
| MM1Run.Step | simulator/modules/sim.py:204-209 | pops the imminent event, puts the clock at its time (never earlier), and hands it to the handler: new state and list as the pure step says; horizon, End flag, callbacks, ledger, handler flag and rates unchanged |
| MM1Run.Run | simulator/modules/sim.py:201-211 | the run keeps the invariant, the clock never moves back, and finished iff the list emptied; a finished run reports only non-negative delays |
| Scenarios.NoHandlerRaises | simulator/tests/sim.py:29-31 | start without a handler raises "No EventHandler attached!" and no callback fires |
| Scenarios.NotifyStartAndStop | simulator/tests/sim.py:33-41 | stop(1) then start: the start callback, End at 1, the stop callback |
| Scenarios.NotifyEventOrder | simulator/tests/sim.py:43-50 | stop(2), schedule Dummy at 1, start: Dummy at clock 1, then End at clock 2 |
| Scenarios.DroppedBeforeStop | simulator/modules/sim.py:182 | before stop, an event at time >= 0 is not admitted |
| Scenarios.NegativeQueued | simulator/modules/sim.py:220-241 | before stop an event at -1 is admitted under the horizon 0, and stop(10) appends End behind it unsorted, so the list is `[X@-1, End@10]` and not non-increasing |
| Scenarios.NegativeDispatchedLast | simulator/modules/sim.py:203-211 | starting that list dispatches End at clock 10 first, then X, and the clock ends at -1 |
| Scenarios.RescheduleOne | simulator/modules/sim.py:236-241 | an event earlier than the lone End goes behind it, to the tail |
| Scenarios.RescheduleSecondTie | simulator/modules/sim.py:238-241 | a second event tied with the tail goes in front of it, so the first stays imminent |
| Scenarios.RescheduleThirdTie | simulator/modules/sim.py:238-241 | a third tied event makes the order second, first, third |
| Scenarios.RescheduleFlipsTies | simulator/modules/sim.py:238-241 | an event earlier than two queued tied events flips their order: the pops come the new event, then the tie scheduled second, then the first |
| Scenarios.TieOrder | simulator/modules/sim.py:236-241 | the event lists after two and three tied schedules |
| Scenarios.AddThenGet | EventList.py:62-65 | an added event is found at index 0 |
| Scenarios.AddThenPop | EventList.py:67-70 | an added event is popped back |
| Scenarios.FirstInFirstOut | EventList.py:39-55 | two added events are popped in the order added, then the list is empty |
| Scenarios.ArrivalWhileIdle | simulator/tests/mm1.py:43-46 | an Arrival at 1 to an empty queue: length 1, logged at 1, in service |
| Scenarios.ArrivalWhileBusy | simulator/tests/mm1.py:54-57 | an Arrival while busy keeps the server busy |
| Scenarios.DepartureEmptiesQueue | simulator/tests/mm1.py:64-67 | a Departure from a queue of one: empty, logged, idle |
| Scenarios.DepartureWithQueue | simulator/tests/mm1.py:69-72 | a Departure from a queue of two: one left and in service |

## Left out

- PRNG classes: Python `random` and numpy `RandomState` are floating-point
  generators. Their draws are parameters of the model (`gap`, `Draw`).
- File output in `_save_statistics` (directory creation, csv writing, the
  "Empty list(s) encountered" and "Mean waiting time unavailable" messages)
  is I/O. `HandleStop` returns the delay list, or `None` where the source
  prints.
- The singleton machinery of `sim.py` and
  `SimulationEngine/SimulationEngineFactory.py` is process-wide state. The
  model holds one explicitly constructed engine.
- The abstract `EventHandler` base classes only register three callbacks.
  The M/M/1 handler's constructor does this registration itself.
- The Python ABC naming mismatch: `simulator/modules/mm1.py` defines
  `handle_*` without the underscore that the abstract base requires. The
  model uses one handler, which registers under the underscored names.
  Instantiation errors are not modelled.
- The `sim_id` attribute and the rate properties only name output files or
  feed the PRNG. The rates are kept as fields but play no role.
- `MM1EventHandler.py`, `SimulationEngine.py` and `main.py` at the root are
  not part of this model. They are `pass` stubs and an early version that
  calls methods that do not exist.
- `Clock.py`, `Event.py` and `SimulationEngine/Event.py` are getter/setter
  holders. The event record is modelled once, as `Events.Event`.
- `analyze-example.py` (floating-point statistics), `run-example.py`
  (subprocess batching) and the argparse wiring scripts are not part of
  this model.
- Engine.SimulationEngine.Run: the generic loop's callbacks are opaque and
  never schedule, so the list only shrinks. A callback that schedules is
  modelled only for the M/M/1 handler, in `MM1Run.Run`.
- MM1Run.Run: it does not prove that the run ends. Exponential gaps can be
  arbitrarily small, so the loop handles at most one event per supplied
  pair of draws. `finished` says whether the list emptied within them.
  Instead of the exact final state it states the invariant, clock
  monotonicity and non-negative delays. `MM1Run.Step` gives each iteration's
  exact effect.
- Engine.SimulationEngine.Schedule: the `admitted` result is extra. The
  source returns nothing.
- Python's integer/float distinction is not modelled: times are `real`, and
  floating-point rounding in the time sums is not modelled.
- The draw `prng.exponential(1/rate)` is a parameter
  (simulator/modules/mm1.py:82,105; des/mm1.py:114,128). Both rates start
  at 0 (simulator/modules/mm1.py:24-26, des/mm1.py:24-26), so in the source
  generating an event raises ZeroDivisionError until the caller sets the
  rates. The model does not capture that error.
- Neither default PRNG class (simulator/modules/sim.py:11-72, sim.py:20-81)
  has the `exponential` method both handlers call, so with the default PRNG
  every draw raises AttributeError. The model's draws are parameters and do
  not capture that error. Only the tests install numpy's `RandomState`
  (simulator/tests/mm1.py:13).
- Keyword arguments of an event (`**kwargs`, sim.py:99) are modelled as a
  map from names to strings. Python allows values of any type.
- Python's duck typing is not modelled: the `if not self.event_handler`
  truthiness test becomes a flag.
- Concurrency: there is none in the core. The batching script's
  subprocesses are not part of this model.
