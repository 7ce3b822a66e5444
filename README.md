# Manufacturing-line discrete-event simulation: a Dafny model

This project models the engine of a discrete-event simulation of a small manufacturing line.
Two inspectors feed five bounded buffers (capacity 2), and three workstations draw from those
buffers. Workstation 1 uses buffer 1. Workstation 2 uses buffers 2 and 4. Workstation 3 uses
buffers 3 and 5.

The model covers these parts:

- **Future-event list (FEL).** Python's stable `list.sort` by start time is modelled as an
  insertion sort (`Fel.SortByStart`). It is proved to return a sorted permutation of its input
  that keeps the order of events with the same start time.
- **Dispatch loop (`Simulation.Simulation`).** Each pass pops the head of the FEL and weights
  the statistics by the elapsed time. It then advances the clock and routes the event by kind.
  IS goes to the inspectors. ID goes to the inspectors, then the workstations. WS goes to the
  workstations, then the inspectors. WD goes to the workstations. SSS switches every entity to
  steady state, and SD ends the run.
- **Entities.** The workstation state machine, the bounded buffer, the inspector's slot table
  and the component token are classes whose fields change in place.
- **Random numbers.** The congruential generator (a = 16807, c = 0, m = 2147283647) and the
  partition of its sequence into seed streams.
- **Records.** Event values, and the replication and batch statistics records with their
  insertion-ordered dictionaries.

The inspectors' event handlers and the buffers' occupancy statistics are called by
`Simulation.py` but are not defined in the modelled files. The handlers are a parameter of the
simulation, `Simulation.InspectorBehaviour`. It answers each call with an optional event and an
optional deposit into one of the inspector's buffers. The reply is a function of the handler, the
inspector's position and the event alone. The dispatch loop requires of it that it never
schedules an event before the event it handles (`Simulation.SchedulesForward`). A buffer's
occupancy integral grows by `size × elapsed`, and only in steady state.

The pieces of code come from different iterations of the program, and these seams are modelled
as follows:

- `EventType.py` has no SSS, but `Simulation.py:108,293` uses one. `Events.EventType` includes it.
- `InspectorEvent.py:7-8` takes five arguments, but `Simulation.py:106-107` passes four. The
  component type of an inspector event is therefore an `Option`.
- `Inspector.py` has a one-argument constructor, but `Simulation.py:39,46` passes four. The class
  has both constructors; the second one adds the id, types, generators, steady flag and blocked time.
- `Buffer.removeComponent` returns a bool, but `Workstation.py:171,197-199` uses its result as a
  component. The buffer therefore keeps its components (`items`, front first, with
  `|items| == size`). `RemoveComponent` returns `Some(front)` exactly when the source returns True.
- `ComponentType` is not among the files. It is modelled as `{C1, C2, C3}`, from `Simulation.py:21-25`.
- `generateRandomNumberStreams` calls `self.__lcm(xj)` with an argument that `__lcm` does not
  take (`RandomNumberGeneration.py:28`). The model advances `xj` by one step of the recurrence.
- `generateRandomServiceTime(title)` is called without a title at `Workstation.py:225`. The model
  leaves out the title, which only feeds a print.

The modulus is 2147283647, not 2^31 − 1. The uniform variate is `xi / m`, not `xi / (m + 1)`.

## Model

| member | source | states |
|---|---|---|
| `Components.Component.constructor` | Component.py:5-8 | the arrival time and type are stored; the departure time is unset |
| `Components.Component.SetDepartureTime` | Component.py:34-38 | the departure time becomes the given time; arrival time and type are constants |
| `Components.StampTwice` | Component.py:34-38 | after two stamps the component keeps the second |
| `Events.NewEvent` | Event.py:5-15 | the created time, start time and kind read back as given; the record carries no entity id |
| `Events.NewWorkstationEvent` | WorkstationEvent.py:6-16 | the base fields are those passed on to the base record; the workstation id is the only added field |
| `Events.NewInspectorEvent` | InspectorEvent.py:7-20 | the base fields are those passed on; the inspector id and component type read back as given |
| `Events.Somes` | Simulation.py:140-145 | the collected events are exactly the non-None replies, and there are no more of them than replies |
| `Events.SomesAppend` | Simulation.py:156-165 | collecting two runs of replies one after the other gives the two collections concatenated |
| `Fel.InsertPermutes` | Simulation.py:118-119 | placing an event in the list adds exactly that event |
| `Fel.InsertSorted` | Simulation.py:118-119 | placing an event in a sorted list keeps it sorted |
| `Fel.InsertAtTime` | Simulation.py:118-119 | the placed event comes after every event already in the list with the same start time |
| `Fel.InsertFacts` | Simulation.py:118-119 | a placement keeps the list sorted, adds exactly the event and puts it behind its equal-start peers |
| `Fel.SortByStartCorrect` | Simulation.py:119 | the sort returns a list sorted by start time that is a permutation of its input and keeps the relative order of equal-start events |
| `Fel.SortSortedIsIdentity` | Simulation.py:119 | sorting a sorted list changes nothing |
| `Fel.InsertAtEnd` | Simulation.py:118-119 | an event starting no earlier than every listed one is appended at the end |
| `Fel.AppendThenSortIsInsert` | Simulation.py:118-119 | appending to a sorted FEL and sorting places the new event after all events that do not start later |
| `Fel.ResortIsSort` | Simulation.py:127-129 | appending a batch to a sorted list and sorting equals sorting everything together |
| `Fel.AddedLandAfter` | Simulation.py:127-129 | the events added in a batch come, per start time, after the events already scheduled, in their own order |
| `Fel.AtTimeNone` | Simulation.py:119 | no event of a list that starts after t starts at t |
| `Fel.NotBeforePermutation` | Simulation.py:129 | a lower bound on the start times survives the sort |
| `Buffers.Buffer.constructor` | Buffer.py:6-10 | id, capacity and type are stored; the buffer starts empty and outside steady state |
| `Buffers.Buffer.AddComponent` | Buffer.py:15-19 | accepts iff the buffer is not full, and then grows by one at the back; otherwise nothing changes; `0 <= size <= maxSize` is kept |
| `Buffers.Buffer.RemoveComponent` | Buffer.py:21-25 | hands out the front component iff the buffer is not empty, and then shrinks by one; otherwise nothing changes; the bound is kept |
| `Buffers.Buffer.SetSteadyState` | Simulation.py:226-227 | the steady flag takes the given value |
| `Buffers.Buffer.AccumulateOcc` | Simulation.py:211-212 | the occupancy integral grows by `size × elapsed` in steady state and not at all before |
| `Buffers.AddThenRemove` | Buffer.py:15-25 | on a non-full buffer, an add and then a remove restore the size and drop the front component |
| `Rng.Step` | RandomNumberGeneration.py:33-36 | one step of the recurrence lands in `[0, m)` |
| `Rng.IterateAdd` | RandomNumberGeneration.py:26-30 | advancing j steps and then k steps is advancing j + k steps |
| `Rng.NextBlockIsBStepsLater` | RandomNumberGeneration.py:26-30 | each stream after the first starts exactly b steps after the previous one |
| `Rng.StepInvertible` | RandomNumberGeneration.py:5-7 | with these constants the step can be undone by multiplying with the inverse of a modulo m |
| `Rng.StepInjective` | RandomNumberGeneration.py:5-7 | distinct states in `[0, m)` have distinct successors, so streams never merge |
| `Rng.StepKeepsPositive` | RandomNumberGeneration.py:33-36 | a state in `(0, m)` never steps to 0, so `ri` is never 0 |
| `Rng.IteratePositive` | RandomNumberGeneration.py:26-30 | every state reached from a seed in `(0, m)` stays in `(0, m)` |
| `Rng.RealMod` | RandomNumberGeneration.py:34 | Python's float `%` by a positive modulus lands in `[0, m)` |
| `Rng.LcmAsWrittenIgnoresSeed` | RandomNumberGeneration.py:33-36 | as written, the first step gives `m − 16807` whatever the seed (see Findings) |
| `Rng.Generator.constructor` | RandomNumberGeneration.py:10-13 | the seed is stored as `xi`, the rate as `lmbda`, and `ri` is −1.0 |
| `Rng.Generator.Lcm` | RandomNumberGeneration.py:33-36 | `xi` advances one step, `ri = xi / m`, and the new `xi` is returned |
| `Rng.Generator.GenerateRandomServiceTime` | RandomNumberGeneration.py:15-19 | the state advances exactly once, and the sample is the transform of the new `ri` and the rate |
| `Rng.Generator.GenerateRandomNumberStreams` | RandomNumberGeneration.py:21-31 | the keys are exactly 0 and `i·b` for `0 <= i < n`; key 0 holds `x0 = 1234567`, and key `i·b` holds `x0` advanced `i·b` steps |
| `Inspectors.FirstSlotRejectedAsWritten` | Inspector.py:14-18 | the bounds test as written refuses slot 0, which the line's wiring assigns, and agrees with the corrected test elsewhere (see Findings) |
| `Inspectors.Inspector.constructor` | Inspector.py:5-9 | `numBuffers` empty slots, `timeRemaining = 0`, `currentComponentType = 0` |
| `Inspectors.Inspector.Create` | Simulation.py:39 | the four-argument construction the line uses: id, slot count, types and generators are stored; the slots are empty |
| `Inspectors.Inspector.SetBuffer` | Inspector.py:14-18 | succeeds iff the index is a slot index; on success only that slot changes, on failure nothing does; the slot count is kept |
| `Inspectors.Inspector.SetBufferAsWritten` | Inspector.py:14-18 | the same, with success iff `0 < index < numBuffers` |
| `Inspectors.Inspector.SetTimeRemaining` | Inspector.py:20-24 | the value set is the value read back |
| `Inspectors.Inspector.SetCurrentComponentType` | Inspector.py:26-30 | the value set is the value read back |
| `Inspectors.Inspector.SetSteadyState` | Simulation.py:229-230 | the steady flag takes the given value |
| `Workstations.Workstation.constructor` | Workstation.py:22-30 | empty slots, nothing built, zero minutes busy, idle and not steady; `NumComponents()` is the slot count |
| `Workstations.Workstation.SetBuffer` | Workstation.py:41-54 | assigns the slot iff the index is a slot index; otherwise raises and changes nothing; the slot count never changes |
| `Workstations.Workstation.SetSteadyState` | Workstation.py:112-118 | the steady flag takes the given value |
| `Workstations.Workstation.BuffersAreReady` | Workstation.py:227-238 | true iff every assigned buffer is non-empty |
| `Workstations.Workstation.HandleInspectorDone` | Workstation.py:120-141 | returns `WS(t, t, id)` iff the buffers are ready and the workstation is idle, else None; changes nothing |
| `Workstations.Workstation.TakeComponents` | Workstation.py:166-171 | takes the front of each buffer in slot order; at the first empty buffer it stops, with the lower slots already drained; no component appears from nowhere |
| `Workstations.Workstation.HandleWorkstationStarted` | Workstation.py:143-174 | misaddressed: None and nothing changes; addressed: busy, generator advanced once; a ready one moves the front component of each buffer into its slot and creates `WD` at t, due at t + service; an unready one raises after busy was set, with every buffer below the first empty one already drained into its slot and the rest untouched |
| `Workstations.Workstation.Start` | Workstation.py:158-174 | the addressed half of the start handler, with the same outcome, drain and failure state |
| `Workstations.Workstation.StampComponents` | Workstation.py:195-199 | every held component is stamped with t and appended in slot order, so the log grows by exactly the slot count |
| `Workstations.Workstation.HandleWorkstationDone` | Workstation.py:176-215 | misaddressed: None; addressed: idle; in steady state one more product and `startTime − createdTime` more minutes busy, otherwise both unchanged; components stamped and logged; returns `WS(t, t, id)` iff the buffers are ready |
| `Dicts.Put` | Replication.py:35-45 | writing a key sets or overwrites only that key; a new key goes to the end of the key order, an existing key keeps its place |
| `Dicts.TableKeys` | Simulation.py:406-415 | writing distinct ids in turn lists them in writing order |
| `Dicts.TableEntries` | Simulation.py:406-415 | writing distinct ids in turn maps each to the value written with it |
| `Dicts.ValuesOf` | Replication.py:101-102 | the values are read in key order, one per key |
| `Dicts.PutValues` | Replication.py:98-109 | after a write, the value list has the new value appended or the old one replaced in place |
| `Dicts.Flatten` | Replication.py:98-109 | a row is throughput, then the busy, blocked and occupancy values in key order; its length is one plus the three sizes |
| `Dicts.AppendValues` | Replication.py:101-102 | the append loop adds the dictionary's values in key order |
| `Records.Replication.constructor` | Replication.py:2-6 | throughput 0 and three empty dictionaries |
| `Records.Replication.SetThroughput` | Replication.py:16-25 | the value set is the value read back |
| `Records.Replication.AddWorkstationBusyProbability` | Replication.py:35-45 | only this workstation's entry is set or overwritten |
| `Records.Replication.AddInspectorBlockedProbability` | Replication.py:55-65 | only this inspector's entry is set or overwritten |
| `Records.Replication.AddAvgBufferOccupancy` | Replication.py:75-85 | only this buffer's entry is set or overwritten |
| `Records.Replication.GetReplicationData` | Replication.py:98-109 | returns the flattened row of the record |
| `Records.Batch.constructor` | Batch.py:3-7 | throughput 0 and three empty dictionaries |
| `Records.Batch.SetThroughput` | Batch.py:9-13 | the value set is the value read back |
| `Records.Batch.AddWorkstationBusyProbability` | Batch.py:18-19 | only this workstation's entry is set or overwritten |
| `Records.Batch.AddInspectorBlockedProbability` | Batch.py:24-25 | only this inspector's entry is set or overwritten |
| `Records.Batch.AddAvgBufferOccupancy` | Batch.py:30-31 | only this buffer's entry is set or overwritten |
| `Records.Batch.GetCsvFormattedStats` | Batch.py:39-51 | returns the flattened row of the batch |
| `Line.StreamKeysAreSeedKeys` | Simulation.py:38-63 | six streams of block size 100000 start exactly at the seed keys the line reads |
| `Line.CreateBuffers` | Simulation.py:15-26 | buffers 1-5, capacity 2, types C1, C1, C1, C2, C3, all empty |
| `Line.CreateInspectors` | Simulation.py:29-49 | inspector 1 feeds buffers 1-3 with one C1 generator seeded from key 0; inspector 2 feeds buffers 4-5 with C2 and C3 generators from keys 100000 and 200000; the rates are the source's |
| `Line.NewWorkstation1` | Simulation.py:65-69 | a one-slot workstation wired to its buffer, unstarted |
| `Line.NewWorkstation2` | Simulation.py:66-74 | a two-slot workstation wired to its two buffers, unstarted |
| `Line.CreateWorkstations` | Simulation.py:52-75 | workstations 1-3 wired as above, seeded from keys 300000, 400000 and 500000 with the source's rates |
| `Line.CreateLine` | Simulation.py:93-95 | the wired line in its initial state |
| `Simulation.SomesNotBefore` | Simulation.py:140-145 | replies that start no earlier than t give collected events that start no earlier than t |
| `Simulation.FourInsertions` | Simulation.py:106-109 | four single insertions equal one sort of the four appended events |
| `Simulation.StartingEventsInOrder` | Simulation.py:106-109 | the start-up events are IS 1 and IS 2 at 0, SSS at 1000 and SD at 15000, already in order |
| `Simulation.WeightedAdd` | Simulation.py:214-223 | time-weighting is additive in the count |
| `Simulation.WeightedIsProduct` | Simulation.py:216 | k components over e minutes weigh `k × e` |
| `Simulation.SizeSumBounds` | Simulation.py:215-216 | bounded buffers hold between 0 and `5 × 2` components in total |
| `Simulation.BuffersDistinct` | Simulation.py:21-26 | the five buffers are five distinct objects |
| `Simulation.BusyTableOfLine` | Simulation.py:406-408 | the busy table lists workstations 1, 2, 3 with `minutesBusy / 14000 × 100` each |
| `Simulation.BlockedTableOfLine` | Simulation.py:410-412 | the blocked table lists inspectors 1, 2 with `timeBlocked / 14000 × 100` each |
| `Simulation.OccupancyTableOfLine` | Simulation.py:413-415 | the occupancy table lists buffers 1-5 with `cumulativeOcc / 14000` each, not ×100 |
| `Simulation.PopFront` | Simulation.py:258 | popping the head of a sorted FEL leaves a sorted FEL that starts no earlier than the head, and keeps a pending SD |
| `Simulation.Schedule` | Simulation.py:269-292 | adding events due no earlier than the clock keeps the FEL sorted, due no earlier than the clock, and keeps a pending SD |
| `Simulation.Simulation.constructor` | Simulation.py:80-98 | clock 0, empty FEL, zero component time, empty seed record |
| `Simulation.Simulation.AddStartingEvents` | Simulation.py:101-109 | the FEL is the old FEL with the four start-up events sorted in |
| `Simulation.Simulation.AddEventToFEL` | Simulation.py:112-119 | the FEL becomes the sort of old FEL plus the event; on a sorted FEL that is the stable insertion |
| `Simulation.Simulation.AddEventsToFEL` | Simulation.py:121-129 | the FEL becomes the sort of old FEL plus the events |
| `Simulation.Simulation.Enqueue` | Simulation.py:121-129 | events not before the clock, added to an ordered FEL of due events, leave it ordered and due, and a pending SD stays pending |
| `Simulation.Simulation.DepositInto` | Simulation.py:141-145 | an inspector's deposit joins the back of its buffer unless the buffer is full |
| `Simulation.Simulation.Deliver` | Simulation.py:141-145 | only the buffer named by the inspector's reply can change |
| `Simulation.Simulation.InspectorsHandle` | Simulation.py:141-145 | the inspectors answer in order; the non-None answers are collected and start no earlier than the event; with `deposits` set, each inspector's deposit joins the back of the buffer its reply names unless that buffer is full, and a buffer the reply of its feeding inspector does not name is unchanged |
| `Simulation.Simulation.HandleInspectorStarted` | Simulation.py:131-145 | only the inspectors are asked, and their deposits land as for `InspectorsHandle` |
| `Simulation.Simulation.AskWorkstationsToStart` | Simulation.py:161-164 | each workstation in order asks to start iff ready and idle |
| `Simulation.Simulation.HandleInspectorDone` | Simulation.py:147-165 | the inspectors' events, then the workstations' start requests, in that order; the inspectors' deposits land as for `InspectorsHandle` |
| `Simulation.Simulation.AskToStart` | Simulation.py:177-180 | one workstation answers a start event; only the addressed one changes: it is busy with its generator one step on, and it moves the front of each of its buffers into its slots, up to the first empty one |
| `Simulation.Simulation.StartOne` | Simulation.py:177-180 | one pass of the workstation loop keeps the collected outcome; once the addressed workstation has been passed, its slots hold the fronts its buffers lost, and before that it is as it was |
| `Simulation.Simulation.StartWorkstations` | Simulation.py:177-180 | only the addressed workstation starts: it is busy with its generator one step on, and its reply is the `WD` or the raise of the start handler; the others change nothing; with `drain` set, the addressed one has moved the front of each buffer into its slot, up to the first empty one |
| `Simulation.Simulation.HandleWorkstationStarted` | Simulation.py:167-185 | a non-workstation event raises; otherwise the addressed workstation is busy with its generator one step on, and a ready one yields its `WD`, due one service time later with the service time drawn from the next variate of its stream, then the inspectors' events; an unready one raises; a misaddressed event yields only the inspectors' events |
| `Simulation.Simulation.AskToFinish` | Simulation.py:197-200 | one workstation answers a done event; only the addressed one changes: it is idle; in steady state it counts one more product and `startTime − createdTime` more minutes busy; its held components are stamped with t and appended to its log in slot order, up to the first unset slot |
| `Simulation.Simulation.FinishOne` | Simulation.py:197-200 | one pass of the workstation loop keeps the collected events; once the addressed workstation has been passed, its counters, stamps and log are those of `AskToFinish`, and before that they are as they were |
| `Simulation.Simulation.HandleWorkstationDone` | Simulation.py:187-201 | only the workstations are asked; only the addressed one answers, and it is idle afterwards; with `done` set, its counters, stamps and log are also those of `AskToFinish` |
| `Simulation.Simulation.InSystemBounds` | Simulation.py:214-223 | the in-system count lies between the number of inspectors and its full-line maximum |
| `Simulation.Simulation.AddBufferOccupancies` | Simulation.py:203-212 | every buffer adds its own occupancy gain |
| `Simulation.Simulation.AddBufferedTime` | Simulation.py:215-216 | adds the buffered components weighted by the elapsed time |
| `Simulation.Simulation.AddHeldTime` | Simulation.py:218-219 | adds one component per inspector, weighted by the elapsed time |
| `Simulation.Simulation.AddAssemblingTime` | Simulation.py:221-223 | adds the slot count of every busy workstation, weighted by the elapsed time |
| `Simulation.Simulation.AddAverageInSystem` | Simulation.py:214-223 | adds `elapsed × (Σ sizes + #inspectors + Σ slots of busy workstations)`, whether or not in steady state |
| `Simulation.Simulation.SetSteadyState` | Simulation.py:225-233 | every buffer, inspector and workstation is in steady state |
| `Simulation.Simulation.GrabXis` | Simulation.py:238-244 | writes exactly the six seed keys, each with the current state of the generator created from it |
| `Simulation.Simulation.Finish` | Simulation.py:299-300 | the seeds are recorded for the next replication, and a valid line stays valid |
| `Simulation.Simulation.RecordBusy` | Simulation.py:406-409 | the busy table is filled and the product counts summed |
| `Simulation.Simulation.RecordBlocked` | Simulation.py:410-412 | the blocked table is filled |
| `Simulation.Simulation.RecordOccupancy` | Simulation.py:413-415 | the occupancy table is filled |
| `Simulation.Simulation.GetStatistics` | Simulation.py:403-418 | a fresh record with the three tables and throughput `products / 14000` |
| `Simulation.Simulation.Advance` | Simulation.py:258-267 | pops exactly the head; `clock` becomes its start, never decreasing; the statistics are weighted by `start − oldClock` |
| `Simulation.Simulation.Elapse` | Simulation.py:265-266 | buffer integrals, then the in-system integral |
| `Simulation.Simulation.DispatchInspectorStarted` | Simulation.py:269-274 | the IS branch schedules the inspectors' replies, and their deposits land as for `InspectorsHandle` |
| `Simulation.Simulation.DispatchInspectorDone` | Simulation.py:275-280 | the ID branch schedules the inspectors' then the workstations' replies, and the inspectors' deposits land as for `InspectorsHandle` |
| `Simulation.Simulation.DispatchWorkstationStarted` | Simulation.py:281-286 | the WS branch on a non-workstation event raises; on a misaddressed one it schedules only the inspectors' replies; otherwise the workstation becomes busy, its generator takes one step, and a ready workstation schedules its WD at `t + exponential(ri, lmbda)` before the inspectors' replies, while an unready one raises with the FEL unchanged |
| `Simulation.Simulation.DispatchWorkstationDone` | Simulation.py:287-292 | the WD branch on a non-workstation event raises; a misaddressed one schedules nothing; otherwise the workstation is idle afterwards, its counters, stamps and log are those of `AskToFinish`, and it schedules exactly its optional restart at `t`, or raises when no component is held |
| `Simulation.Simulation.DispatchSteadyState` | Simulation.py:293-294 | the SSS branch puts the whole line in steady state |
| `Simulation.Simulation.Dispatch` | Simulation.py:269-298 | routes by kind: SD alone ends the loop; IS schedules the inspectors' replies; ID schedules the inspectors' replies then the idle workstations' restarts; IS and ID deposits land as for `InspectorsHandle`; WS and WD have the effects and schedules of their branches and alone raise, and a WD leaves the counters, stamps and log of `AskToFinish`; SSS and SD schedule nothing; the FEL becomes the sorted old FEL plus what was scheduled. Its frame is per kind: SD changes nothing but the FEL; IS and ID change only the FEL and the buffers' contents; WS also the addressed workstation and its generator; WD only the FEL, the addressed workstation and the components it holds; SSS only the FEL and the steady-state flags |
| `Simulation.Simulation.HandleNext` | Simulation.py:258-298 | one loop pass on a non-empty FEL: the handled event is the old head, the clock moves to its start without going back, and it is routed as by `Dispatch`, with the same per-kind frame keyed on the head |
| `Simulation.Simulation.ProcessNext` | Simulation.py:258-298 | one loop pass: the head is popped, the clock moves to its start without going back, and that event is routed as by `Dispatch`, with its per-kind schedules and frame; an empty FEL raises |
| `Simulation.Simulation.RunOnce` | Simulation.py:256-298 | a pass with SD pending handles the old head, moving the clock to its start; it never meets an empty FEL; it reports the end of the run exactly when that event is SD; only WS and WD raise; SD stays pending unless it was consumed; with `detail` set, the event is routed as by `Dispatch`, and the FEL is the old tail, plus what was scheduled in start order unless the event was SD or SSS or its handler raised |
| `Simulation.LoggedStep` | Simulation.py:256-298 | one more handled event, no earlier than the last, keeps the run's log in time order, with SD only at the end of a completed run and WS or WD at the end of a failed one |
| `Simulation.Simulation.RunEvents` | Simulation.py:256-298 | the loop: the handled events begin with the old head and are in time order, none after the clock; a completed loop ends with its first SD; a failed one ends with the WS or WD whose handler raised and saw no SD; one out of fuel handled exactly `fuel` events, none SD, and SD is still pending; the FEL is never found empty |
| `Simulation.Simulation.Run` | Simulation.py:246-300 | the loop's outcome and log as for `RunEvents`; the clock never decreases; a completed run has also recorded the seeds |
| `Simulation.NewSimulation` | Simulation.py:80-98 | a valid simulation on the wired line, with the four start-up events as its FEL and SD pending |

## Left out

- The inspectors' event handlers are not part of the modelled files. They are the parameter
  `Simulation.InspectorBehaviour`, required to schedule at or after the event they handle.
  Their blocking, round-robin choice and blocked-time accounting are therefore not modelled.
  Each inspector's `timeBlocked` stays at the value it was created with.
- Simulation.InspectorBehaviour: a reply is a function of the handler, the inspector's position
  and the event only. It cannot depend on whether a buffer is full or on the inspector's own
  state, as the source's handlers do (for example when an inspector is blocked).
- Simulation.Simulation.DepositInto: a deposit into a full buffer is dropped without trace, and
  the inspector's reply stands. Since replies cannot see the buffers, the model cannot express a
  handler that holds its component back (blocks) when the buffer is full.
- Simulation.Simulation.RunOnce: its frame is the union over event kinds. The per-kind frame is
  stated on `Dispatch`, `HandleNext` and `ProcessNext`; carrying it through the run loop costs
  more proof effort than the loop's invariants allow. The frame also names every component
  (`Simulation.AnyComponent` holds of all of them), because the components deposited in earlier
  passes are created inside the run and no set fixed at its start can name them. So the frame
  does not say which components may change.
- Simulation.Simulation.RunEvents: its frame names every component, for the same reason as
  `RunOnce`. It calls `RunOnce` with `detail` unset, so the loop does not carry each pass's
  routing and FEL update; it keeps the log and the outcome.
- Simulation.Simulation.Run: its frame names every component, as for `RunEvents`.
- Simulation.Simulation.HandleWorkstationStarted: does not restate what the addressed workstation
  took from its buffers, or the inspectors' deposits that follow. `StartWorkstations` with
  `drain` set, `Workstations.Workstation.HandleWorkstationStarted` and `InspectorsHandle` with
  `deposits` set state them. Combining both across the two calls takes the proof beyond the
  verifier's resource limit, so this method calls both with the flag unset.
- Simulation.Simulation.DispatchWorkstationStarted: the same drain and deposits are not restated,
  for the same reason.
- Simulation.Simulation.Dispatch: the WS branch's drain and deposits are not restated, as for
  `DispatchWorkstationStarted`.
- Simulation.Simulation.HandleNext: does not restate `Dispatch`'s per-kind effects on the buffers'
  contents (IS, ID) or on the addressed workstation's counters, stamps and log (WD) after the
  statistics update. Its frame still bounds what each kind may change.
- Simulation.Simulation.ProcessNext: the same per-kind effects are not restated, as for `HandleNext`.
- Simulation.Simulation.StartWorkstations, Simulation.Simulation.HandleWorkstationDone,
  Simulation.Simulation.InspectorsHandle, Simulation.Simulation.RunOnce: the extra facts under a
  ghost flag (`drain`, `done`, `deposits`, `detail`) hold only when the caller sets it. Callers
  that do not use them leave the flag unset to keep their own proofs small.
- The exponential transform `-ln(ri)/lmbda` (RandomNumberGeneration.py:18) is a parameter
  returning a non-negative real, since the model has no logarithm. Floating-point rounding is
  not modelled: times and statistics are exact reals.
- Rng.Generator.GenerateRandomServiceTime: the transform is total, so the model does not raise
  Python's ValueError from `math.log(0)` (a seed that is a multiple of m leaves `ri` at 0) or its
  ZeroDivisionError for `lmbda = 0`. `Rng.IteratePositive` shows that seeds in `(0, m)`, as the
  line's seed table gives, never reach `ri = 0`.
- Buffers.Buffer.AccumulateOcc: the body of `accumulateOcc` is not among the modelled files;
  Simulation.py:211-212 only calls it. The model assumes the steady-state rule that the integral
  grows by `size × elapsed`, and only in steady state.
- The print at RandomNumberGeneration.py:17, `printStatistics` and the `print*Stats` methods of
  Simulation.py:303-401, and `printStats` in Replication.py and Batch.py are console reporting.
  So is the conservation check at Simulation.py:394-396, which also depends on the inspector handlers.
- Analyze.py (CSV reading, writing and averaging) and Performance.py (the replication driver)
  are not part of this model. Their hand-off is covered by `Line.StreamKeysAreSeedKeys` and
  `Simulation.Simulation.GrabXis`.
- Simulation.Simulation.Run: takes a `fuel` bound on the number of events, passed on to
  `RunEvents`, since an unbounded loop cannot be proved to end. When the fuel runs out, SD is
  still pending.
- Simulation.Simulation.Dispatch: the `else: raise ValueError` of Simulation.py:297-298 cannot
  happen, because the event-kind datatype has exactly the six kinds handled.
- Workstations.Workstation.HandleInspectorDone: requires every slot to hold a distinct buffer
  (`Wired`). Python would raise AttributeError on an unset slot; the line always wires every slot.
- Workstations.Workstation.HandleWorkstationStarted: requires the same wiring and the buffers'
  bounds, for the same reason.
- Workstations.Workstation.HandleWorkstationDone: requires the same wiring.
- Simulation.Simulation.Run: the property that two runs from the same seeds give the same record
  is not stated. It holds because every member of the model is deterministic.
- Getters that only return a field (`getSize`, `getId`, `getBuffers`, `getXi` and the like) are
  field reads in the model and have no member of their own.
- Unused imports (Workstation.py:1-2,9) have nothing to model.

## Findings

| source | as written | input that shows it | evidently intended | confidence | as-written member | corrected member |
|---|---|---|---|---|---|---|
| RandomNumberGeneration.py:33-36 | `__lcm` computes the new `xi` from `ri`, not from `xi` | any seed: on the first call `ri = -1.0`, so `xi = (16807 × -1.0) % m = m − 16807` whatever the seed, and every stream is the same | `xi := (a × xi + c) mod m`, then `ri := xi / m` | high (not executed) | `Rng.LcmAsWrittenIgnoresSeed` | `Rng.Generator.Lcm` |
| Inspector.py:14-18 | `setBuffer` accepts only `0 < index < numBuffers` | `setBuffer(0, buffers[0])` at Simulation.py:40 returns False, so slot 0 stays None | accept every index `0 <= index < numBuffers` | high (not executed) | `Inspectors.FirstSlotRejectedAsWritten` | `Inspectors.Inspector.SetBuffer` |
