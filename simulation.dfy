/**
 * Simulation.py: the fixed line of two inspectors, five buffers and three workstations, the
 * future-event list (FEL) and the dispatch loop that pops the earliest event, advances the clock,
 * time-weights the statistics and hands the event to the components it concerns.
 */
module Simulation {
  import opened Outcomes
  import opened Components
  import opened Events
  import opened Fel
  import opened Buffers
  import opened Rng
  import opened Inspectors
  import opened Workstations
  import opened Dicts
  import opened Records
  import opened Line

  /** Simulated minutes, warm-up minutes and the steady-state window they leave. */
  const Time: real := 15000.0
  const Warmup: real := 1000.0
  /** The steady-state window, Time - Warmup, written as a literal so that dividing by it stays linear. */
  const SteadyStateTime: real := 14000.0

  /** Minutes spent in some state, as a percentage of the steady-state window. */
  function Percent(minutes: real): real
  {
    minutes / SteadyStateTime * 100.0
  }

  /** A total spread over the steady-state window: its average per minute. */
  function PerMinute(total: real): real
  {
    total / SteadyStateTime
  }

  /** addStartingEvents: both inspectors start at 0, steady state begins at the warm-up, the run ends at time. */
  const StartingEvents: seq<Event> := [
    InspectorEvent(0.0, 0.0, IS, 1, None),
    InspectorEvent(0.0, 0.0, IS, 2, None),
    NewEvent(0.0, Warmup, SSS),
    NewEvent(0.0, Time, SD)
  ]

  /**
   * The inspectors' handlers are not part of the modelled files. Each inspector answers an event
   * with an optional new event and an optional deposit of a freshly inspected component into one
   * of its buffer slots; the answer is a function of the handler, the inspector's position and the
   * event.
   */
  datatype Hook = OnInspectorStarted | OnInspectorDone | OnWorkstationStarted
  datatype Deposit = Deposit(slot: int, arrival: real)
  datatype Reply = Reply(event: Option<Event>, deposit: Option<Deposit>)
  type InspectorBehaviour = (Hook, int, Event) -> Reply

  /**
   * What the dispatch loop requires of the inspectors: they never schedule before the event they
   * handle. Their replies are otherwise unconstrained, though they see only the handler, the
   * inspector's position and the event.
   */
  ghost predicate SchedulesForward(behaviour: InspectorBehaviour)
  {
    forall h, k, e :: behaviour(h, k, e).event.Some? ==> e.startTime <= behaviour(h, k, e).event.value.startTime
  }

  datatype RunOutcome = Completed | Failed(fault: Fault) | OutOfFuel

  /**
   * The buffer (0-based, in createBuffers order) that inspector k's reply deposits into, or -1
   * when it deposits nothing or names a slot the inspector does not have.
   */
  function DepositTarget(k: int, reply: Reply): (i: int)
    ensures -1 <= i < 5
    ensures i != -1 <==> reply.deposit.Some? && 0 <= reply.deposit.value.slot < (if k == 0 then 3 else if k == 1 then 2 else 0)
  {
    if reply.deposit.None? then -1
    else
      var slot := reply.deposit.value.slot;
      if k == 0 && 0 <= slot < 3 then slot
      else if k == 1 && 0 <= slot < 2 then 3 + slot
      else -1
  }

  /** s when c holds, otherwise nothing: a frame that applies to one kind of event. */
  function When<T>(c: bool, s: seq<T>): seq<T>
  {
    if c then s else []
  }

  /** The workstation position (0-based) a workstation event is addressed to, or -1. */
  function Addressee(event: Event): (k: int)
    ensures -1 <= k < 3
    ensures k != -1 <==> event.WorkstationEvent? && 1 <= event.workstationId <= 3
    ensures k != -1 ==> event.workstationId == k + 1
  {
    if event.WorkstationEvent? && 1 <= event.workstationId <= 3 then event.workstationId - 1 else -1
  }

  /** Every reply that is an event starts at or after t, so the collected events do too. */
  lemma {:induction false} SomesNotBefore(replies: seq<Option<Event>>, t: real)
    requires forall j :: 0 <= j < |replies| && replies[j].Some? ==> t <= replies[j].value.startTime
    ensures NotBefore(Somes(replies), t)
  {
    if replies != [] {
      SomesNotBefore(replies[1..], t);
    }
  }

  /** Four insertions one at a time leave the FEL as one sort of all four appended. */
  lemma {:induction false} FourInsertions(f: seq<Event>, es: seq<Event>)
    requires |es| == 4
    ensures SortByStart(SortByStart(SortByStart(SortByStart(f + [es[0]]) + [es[1]]) + [es[2]]) + [es[3]])
         == SortByStart(f + es)
  {
    ResortIsSort(f + [es[0]], [es[1]]);
    assert f + [es[0]] + [es[1]] == f + es[..2];
    ResortIsSort(f + es[..2], [es[2]]);
    assert f + es[..2] + [es[2]] == f + es[..3];
    ResortIsSort(f + es[..3], [es[3]]);
    assert f + es[..3] + [es[3]] == f + es;
  }

  lemma {:induction false} FourInOrder(es: seq<Event>)
    requires |es| == 4 && es[0].startTime <= es[1].startTime <= es[2].startTime <= es[3].startTime
    ensures Sorted(es)
  {
  }

  /** The starting events are already in start order, so adding them to an empty FEL keeps them as they are. */
  lemma StartingEventsInOrder()
    ensures Sorted(StartingEvents) && SortByStart([] + StartingEvents) == StartingEvents
    ensures NotBefore(StartingEvents, 0.0) && StartingEvents[3].eventType == SD
  {
    assert [] + StartingEvents == StartingEvents;
    FourInOrder(StartingEvents);
    SortSortedIsIdentity(StartingEvents);
  }

  /** The components waiting in the buffers. */
  function SizeSum(bs: seq<Buffer>): int
    reads bs`size
  {
    if bs == [] then 0 else SizeSum(bs[..|bs| - 1]) + bs[|bs| - 1].size
  }

  /** The components the busy workstations are assembling: one per buffer slot of each. */
  function BusySlots(ws: seq<Workstation>): int
    reads ws`isBusy, ws`buffers
  {
    if ws == [] then 0
    else BusySlots(ws[..|ws| - 1]) + (if ws[|ws| - 1].isBusy then ws[|ws| - 1].NumComponents() else 0)
  }

  /** The products of all workstations. */
  function TotalProducts(ws: seq<Workstation>): int
    reads ws`numProductsCreated
  {
    Sum(ProductCounts(ws))
  }

  /** Each workstation's count of products made, in line order. */
  function ProductCounts(ws: seq<Workstation>): (cs: seq<int>)
    reads ws`numProductsCreated
    ensures |cs| == |ws| && forall i :: 0 <= i < |ws| ==> cs[i] == ws[i].numProductsCreated
  {
    if ws == [] then [] else ProductCounts(ws[..|ws| - 1]) + [ws[|ws| - 1].numProductsCreated]
  }

  /** The sum of a list of counts. */
  function Sum(xs: seq<int>): int
  {
    if xs == [] then 0 else Sum(xs[..|xs| - 1]) + xs[|xs| - 1]
  }

  /** k components present for e minutes weigh k x e (WeightedIsProduct); kept as a sum so that counts stay linear. */
  function Weighted(k: int, e: real): real
    decreases if k < 0 then -k else k
  {
    if k == 0 then 0.0 else if k > 0 then Weighted(k - 1, e) + e else Weighted(k + 1, e) - e
  }

  lemma {:induction false} WeightedAdd(a: int, b: int, e: real)
    ensures Weighted(a + b, e) == Weighted(a, e) + Weighted(b, e)
    decreases if b < 0 then -b else b
  {
    if b > 0 {
      WeightedAdd(a, b - 1, e);
    } else if b < 0 {
      WeightedAdd(a, b + 1, e);
    }
  }

  /** The weight of k components over e minutes is k x e. */
  lemma {:induction false} WeightedIsProduct(k: int, e: real)
    ensures Weighted(k, e) == k as real * e
    decreases if k < 0 then -k else k
  {
    if k > 0 {
      WeightedIsProduct(k - 1, e);
    } else if k < 0 {
      WeightedIsProduct(k + 1, e);
    }
  }

  /** Buffers of bounded size hold between none and |bs| x MaxBufferSize components. */
  lemma {:induction false} SizeSumBounds(bs: seq<Buffer>)
    requires forall i :: 0 <= i < |bs| ==> bs[i].Valid() && bs[i].maxSize == MaxBufferSize
    ensures 0 <= SizeSum(bs) <= |bs| * MaxBufferSize
  {
    if bs != [] {
      SizeSumBounds(bs[..|bs| - 1]);
    }
  }

  /** The buffers of createBuffers are five distinct objects (their ids differ). */
  lemma {:induction false} BuffersDistinct(bs: seq<Buffer>)
    requires BuffersLaidOut(bs)
    ensures forall i, j :: 0 <= i < j < |bs| ==> bs[i] != bs[j]
  {
    forall i, j | 0 <= i < j < |bs|
      ensures bs[i] != bs[j]
    {
      assert bs[i].id == i + 1 && bs[j].id == j + 1 by {
        assert i == 0 || i == 1 || i == 2 || i == 3;
        assert j == 1 || j == 2 || j == 3 || j == 4;
      }
    }
  }

  /** The ids of a list of workstations, in order. */
  function WorkstationIds(ws: seq<Workstation>): (ids: seq<int>)
    ensures |ids| == |ws| && forall i :: 0 <= i < |ws| ==> ids[i] == ws[i].id
  {
    if ws == [] then [] else WorkstationIds(ws[..|ws| - 1]) + [ws[|ws| - 1].id]
  }

  /** Each workstation's minutes busy over the steady-state window, as a percentage. */
  ghost function BusyShares(ws: seq<Workstation>): (vs: seq<real>)
    reads ws`minutesBusy
    ensures |vs| == |ws| && forall i :: 0 <= i < |ws| ==> vs[i] == Percent(ws[i].minutesBusy)
  {
    if ws == [] then [] else BusyShares(ws[..|ws| - 1]) + [Percent(ws[|ws| - 1].minutesBusy)]
  }

  /** The ids of a list of inspectors, in order. */
  function InspectorIds(ins: seq<Inspector>): (ids: seq<int>)
    ensures |ids| == |ins| && forall i :: 0 <= i < |ins| ==> ids[i] == ins[i].id
  {
    if ins == [] then [] else InspectorIds(ins[..|ins| - 1]) + [ins[|ins| - 1].id]
  }

  /** Each inspector's minutes blocked over the steady-state window, as a percentage. */
  ghost function BlockedShares(ins: seq<Inspector>): (vs: seq<real>)
    reads ins`timeBlocked
    ensures |vs| == |ins| && forall i :: 0 <= i < |ins| ==> vs[i] == Percent(ins[i].timeBlocked)
  {
    if ins == [] then [] else BlockedShares(ins[..|ins| - 1]) + [Percent(ins[|ins| - 1].timeBlocked)]
  }

  /** The ids of a list of buffers, in order. */
  function BufferIds(bs: seq<Buffer>): (ids: seq<int>)
    ensures |ids| == |bs| && forall i :: 0 <= i < |bs| ==> ids[i] == bs[i].id
  {
    if bs == [] then [] else BufferIds(bs[..|bs| - 1]) + [bs[|bs| - 1].id]
  }

  /** Each buffer's occupancy integral divided by the steady-state window: its average occupancy. */
  ghost function OccupancyShares(bs: seq<Buffer>): (vs: seq<real>)
    reads bs`cumulativeOcc
    ensures |vs| == |bs| && forall i :: 0 <= i < |bs| ==> vs[i] == PerMinute(bs[i].cumulativeOcc)
  {
    if bs == [] then [] else OccupancyShares(bs[..|bs| - 1]) + [PerMinute(bs[|bs| - 1].cumulativeOcc)]
  }

  /** The busy percentages getStatistics records, keyed by workstation id in line order. */
  ghost function BusyTable(ws: seq<Workstation>): Dict
    reads ws`minutesBusy
  {
    Table(WorkstationIds(ws), BusyShares(ws))
  }

  /** The blocked percentages, keyed by inspector id in line order. */
  ghost function BlockedTable(ins: seq<Inspector>): Dict
    reads ins`timeBlocked
  {
    Table(InspectorIds(ins), BlockedShares(ins))
  }

  /** The average occupancies, keyed by buffer id in line order. */
  ghost function OccupancyTable(bs: seq<Buffer>): Dict
    reads bs`cumulativeOcc
  {
    Table(BufferIds(bs), OccupancyShares(bs))
  }

  /** On the fixed line the busy table lists workstations 1, 2, 3 in that order, each with its own percentage. */
  lemma {:induction false} BusyTableOfLine(ws: seq<Workstation>)
    requires WorkstationsLaidOut(ws)
    ensures BusyTable(ws).keys == [1, 2, 3]
    ensures forall k :: 0 <= k < 3 ==> BusyTable(ws).entries[BusyTable(ws).keys[k]] == Percent(ws[k].minutesBusy)
  {
    var ids := WorkstationIds(ws);
    assert ids == [1, 2, 3];
    TableKeys(ids, BusyShares(ws));
    TableEntries(ids, BusyShares(ws));
  }

  /** The blocked table lists inspectors 1 and 2 in that order, each with its own percentage. */
  lemma {:induction false} BlockedTableOfLine(ins: seq<Inspector>)
    requires InspectorsLaidOut(ins)
    ensures BlockedTable(ins).keys == [1, 2]
    ensures forall k :: 0 <= k < 2 ==> BlockedTable(ins).entries[BlockedTable(ins).keys[k]] == Percent(ins[k].timeBlocked)
  {
    var ids := InspectorIds(ins);
    assert ids == [1, 2];
    TableKeys(ids, BlockedShares(ins));
    TableEntries(ids, BlockedShares(ins));
  }

  /** The occupancy table lists buffers 1 to 5 in that order, each with its own average. */
  lemma {:induction false} OccupancyTableOfLine(bs: seq<Buffer>)
    requires BuffersLaidOut(bs)
    ensures OccupancyTable(bs).keys == [1, 2, 3, 4, 5]
    ensures forall k :: 0 <= k < 5 ==> OccupancyTable(bs).entries[OccupancyTable(bs).keys[k]] == PerMinute(bs[k].cumulativeOcc)
  {
    var ids := BufferIds(bs);
    assert ids == [1, 2, 3, 4, 5];
    TableKeys(ids, OccupancyShares(bs));
    TableEntries(ids, OccupancyShares(bs));
  }

  /**
   * The frame of a run over components. A pass stamps the components a workstation finishes, and
   * those may have been taken from a buffer or created by a deposit during an earlier pass of the
   * same run, so no set fixed when the run starts can name them. `Dispatch` and the methods that
   * call it use this frame; the branch that stamps, WD, is framed by `FinishingComponents(event)`,
   * the components the addressed workstation actually holds.
   */
  ghost predicate AnyComponent(c: Component)
  {
    true
  }

  /** A shutdown event is among the events. */
  ghost predicate HasSD(f: seq<Event>)
  {
    exists i :: 0 <= i < |f| && f[i].eventType == SD
  }

  /** Taking the earliest event off an ordered FEL leaves an ordered FEL that starts no earlier than it. */
  lemma {:induction false} PopFront(f: seq<Event>)
    requires Sorted(f) && f != []
    ensures Sorted(f[1..]) && NotBefore(f[1..], f[0].startTime)
    ensures HasSD(f) && f[0].eventType != SD ==> HasSD(f[1..])
  {
    if HasSD(f) && f[0].eventType != SD {
      var i :| 0 <= i < |f| && f[i].eventType == SD;
      assert f[1..][i - 1] == f[i];
    }
  }

  /**
   * Adding events that start no earlier than t to a FEL that starts no earlier than t, then sorting,
   * gives an ordered FEL that still starts no earlier than t and still holds its shutdown event.
   */
  lemma {:induction false} Schedule(rest: seq<Event>, events: seq<Event>, t: real)
    requires NotBefore(rest, t) && NotBefore(events, t)
    ensures Sorted(SortByStart(rest + events)) && NotBefore(SortByStart(rest + events), t)
    ensures HasSD(rest) ==> HasSD(SortByStart(rest + events))
  {
    var f := SortByStart(rest + events);
    SortByStartCorrect(rest + events);
    NotBeforeConcat(rest, events, t);
    NotBeforePermutation(rest + events, f, t);
    if HasSD(rest) {
      var i :| 0 <= i < |rest| && rest[i].eventType == SD;
      assert (rest + events)[i] == rest[i];
      assert rest[i] in multiset(f);
      var j :| 0 <= j < |f| && f[j] == rest[i];
    }
  }

  /**
   * handled is what run has taken off the FEL up to time t, with the outcome so far: in time order,
   * with no shutdown event while the run goes on, ending with the shutdown event when it completed
   * and with a workstation event when a handler raised.
   */
  ghost predicate Logged(handled: seq<Event>, outcome: RunOutcome, t: real)
  {
    && Sorted(handled) && (forall i :: 0 <= i < |handled| ==> handled[i].startTime <= t)
    && (outcome == OutOfFuel ==> !HasSD(handled))
    && (outcome == Completed ==>
          handled != [] && handled[|handled| - 1].eventType == SD && !HasSD(handled[..|handled| - 1]))
    && (outcome.Failed? ==> handled != [] && handled[|handled| - 1].eventType in {WS, WD} && !HasSD(handled))
  }

  /** One more pass of run's loop, on an event no earlier than the last, keeps the log. */
  lemma {:induction false} LoggedStep(handled: seq<Event>, t: real, event: Event, outcome: RunOutcome)
    requires Logged(handled, OutOfFuel, t) && t <= event.startTime
    requires outcome == Completed <==> event.eventType == SD
    requires outcome.Failed? ==> event.eventType in {WS, WD}
    ensures Logged(handled + [event], outcome, event.startTime)
  {
    var log := handled + [event];
    assert log[..|log| - 1] == handled;
  }

  class Simulation {
    const buffers: seq<Buffer>
    const inspectors: seq<Inspector>
    const workstations: seq<Workstation>
    const behaviour: InspectorBehaviour
    const exponential: Transform
    var clock: real
    var fel: seq<Event>
    var totalComponentTime: real
    var xis: map<int, int>

    /** The generators the workstations draw service times from. */
    ghost function WorkstationGenerators(): set<Generator>
      requires |workstations| == 3
    {
      {workstations[0].randomNumberGenerator, workstations[1].randomNumberGenerator, workstations[2].randomNumberGenerator}
    }

    /** The fixed topology of createBuffers, createInspectors and createWorkstations: counts, ids, bounds, types. */
    ghost predicate Layout()
    {
      BuffersLaidOut(buffers) && InspectorsLaidOut(inspectors) && WorkstationsLaidOut(workstations)
    }

    ghost predicate InspectorSlots()
      reads inspectors`buffers
    {
      InspectorSlotsOf(buffers, inspectors)
    }

    ghost predicate WorkstationSlots()
      reads workstations`buffers
    {
      WorkstationSlotsOf(buffers, workstations)
    }

    ghost predicate Shapes()
      reads workstations`buffers, workstations`currComponents
    {
      ShapesOf(workstations)
    }


    ghost predicate BuffersOk()
      reads buffers`size, buffers`items
    {
      AllBounded(buffers)
    }

    /** The FEL is in start order and nothing in it lies in the past. */
    ghost predicate FelOk()
      reads this`fel, this`clock
    {
      Sorted(fel) && NotBefore(fel, clock)
    }

    /** The line is wired as the create functions leave it, every FEL entry is due, and the FEL is ordered. */
    ghost predicate Valid()
      reads this`fel, this`clock, inspectors`buffers, workstations`buffers, workstations`currComponents
      reads buffers`size, buffers`items
    {
      && Layout() && InspectorSlots() && WorkstationSlots() && Shapes() && BuffersOk()
      && SchedulesForward(behaviour) && FelOk()
    }

    /** A step that leaves every field Valid reads as it was keeps the simulation valid. */
    twostate lemma ValidKept()
      requires old(Valid())
      requires unchanged(this`fel, this`clock, inspectors`buffers, workstations`buffers, workstations`currComponents)
      requires unchanged(buffers`size, buffers`items)
      ensures Valid()
    {
    }

    /** The shutdown event is still scheduled. */
    ghost predicate HasShutdown()
      reads this`fel
    {
      HasSD(fel)
    }

    /** The fields Simulation.__init__ sets (Simulation.py:80-98), with the FEL still empty. */
    constructor (bs: seq<Buffer>, ins: seq<Inspector>, ws: seq<Workstation>, behaviour: InspectorBehaviour, exponential: Transform)
      ensures buffers == bs && inspectors == ins && workstations == ws
      ensures this.behaviour == behaviour && this.exponential == exponential
      ensures clock == 0.0 && fel == [] && totalComponentTime == 0.0 && xis == map[]
    {
      buffers := bs;
      inspectors := ins;
      workstations := ws;
      this.behaviour := behaviour;
      this.exponential := exponential;
      clock := 0.0;
      fel := [];
      totalComponentTime := 0.0;
      xis := map[];
    }

    /** addStartingEvents (Simulation.py:101-109): the four events, one insertion at a time. */
    method AddStartingEvents()
      modifies this`fel
      ensures fel == SortByStart(old(fel) + StartingEvents)
    {
      ghost var f := fel;
      AddEventToFEL(StartingEvents[0]);
      AddEventToFEL(StartingEvents[1]);
      AddEventToFEL(StartingEvents[2]);
      AddEventToFEL(StartingEvents[3]);
      FourInsertions(f, StartingEvents);
    }

    /** addEventToFEL (Simulation.py:112-119): append, then the stable sort by start time. */
    method AddEventToFEL(event: Event)
      modifies this`fel
      ensures fel == SortByStart(old(fel) + [event])
      ensures Sorted(old(fel)) ==> fel == Insert(old(fel), event)
    {
      fel := fel + [event];
      fel := SortByStart(fel);
      if Sorted(old(fel)) {
        AppendThenSortIsInsert(old(fel), event);
      }
    }

    /** addEventsToFEL (Simulation.py:121-129): append every event, then sort once. */
    method AddEventsToFEL(events: seq<Event>)
      modifies this`fel
      ensures fel == SortByStart(old(fel) + events)
    {
      var i := 0;
      while i < |events|
        invariant 0 <= i <= |events|
        invariant fel == old(fel) + events[..i]
      {
        fel := fel + [events[i]];
        i := i + 1;
      }
      assert events[..i] == events;
      fel := SortByStart(fel);
    }

    /** What every scheduling branch of run does with its events; events not before the clock keep the FEL ordered and due. */
    method Enqueue(events: seq<Event>)
      requires FelOk() && NotBefore(events, clock)
      modifies this`fel
      ensures FelOk() && fel == SortByStart(old(fel) + events)
      ensures old(HasShutdown()) ==> HasShutdown()
      ensures old(Valid()) ==> Valid()
    {
      Schedule(fel, events, clock);
      AddEventsToFEL(events);
    }

    /** The inspectors' answers to one handler call, in inspector order. */
    ghost function InspectorReplies(hook: Hook, event: Event): seq<Option<Event>>
    {
      seq(|inspectors|, k => behaviour(hook, k, event).event)
    }

    /** What the three workstations answer to an inspector-done event at time t, in workstation order. */
    ghost function IdleReplies(t: real): (replies: seq<Option<Event>>)
      requires WorkstationSlots()
      reads workstations`buffers, workstations`isBusy, buffers`size
      ensures |replies| == |workstations|
      ensures forall k :: 0 <= k < |workstations| ==> replies[k] == workstations[k].StartIfReady(t)
    {
      [workstations[0].StartIfReady(t), workstations[1].StartIfReady(t), workstations[2].StartIfReady(t)]
    }

    /** A new component of buffer b's type, arriving at the given time, joins the back of b unless it is full. */
    method DepositInto(b: Buffer, arrival: real)
      requires BuffersOk() && b in buffers
      modifies b`size, b`items
      ensures BuffersOk()
      ensures old(b.IsFull()) ==> b.items == old(b.items)
      ensures !old(b.IsFull()) ==>
        && |b.items| == old(|b.items|) + 1
        && b.items[..old(|b.items|)] == old(b.items)
        && b.items[old(|b.items|)].arrivalTime == arrival
    {
      var c := new Component(arrival, b.componentType);
      var ok := b.AddComponent(c);
    }

    /** Carries out the deposit in inspector k's answer, if it names one of the inspector's slots. */
    method Deliver(k: int, hook: Hook, event: Event)
      requires BuffersLaidOut(buffers) && InspectorSlots() && BuffersOk()
      requires 0 <= k < |inspectors|
      modifies buffers`size, buffers`items
      ensures BuffersOk()
      ensures forall i :: 0 <= i < |buffers| && i != DepositTarget(k, behaviour(hook, k, event)) ==>
        buffers[i].items == old(buffers[i].items)
      ensures DeliveredTo(DepositTarget(k, behaviour(hook, k, event)), behaviour(hook, k, event))
    {
      var reply := behaviour(hook, k, event);
      if reply.deposit.Some? {
        var slot := reply.deposit.value.slot;
        if 0 <= slot < |inspectors[k].buffers| {
          var i := if k == 0 then slot else 3 + slot;
          assert inspectors[k].buffers[slot] == buffers[i];
          DepositInto(buffers[i], reply.deposit.value.arrival);
        }
      }
    }

    /** Buffer i, as a frame: that buffer, or nothing when i names none. */
    ghost function BufferAt(i: int): set<Buffer>
    {
      if 0 <= i < |buffers| then {buffers[i]} else {}
    }

    /** Buffer i received the reply's deposit unless it was full (vacuous when i is -1). */
    twostate predicate DeliveredTo(i: int, reply: Reply)
      reads BufferAt(i)`size, BufferAt(i)`items
    {
      0 <= i < |buffers| && reply.deposit.Some? ==>
        && (old(buffers[i].IsFull()) ==> buffers[i].items == old(buffers[i].items))
        && (!old(buffers[i].IsFull()) ==>
              && |buffers[i].items| == old(|buffers[i].items|) + 1
              && buffers[i].items[..old(|buffers[i].items|)] == old(buffers[i].items)
              && buffers[i].items[old(|buffers[i].items|)].arrivalTime == reply.deposit.value.arrival)
    }

    /** The first buffer that inspector k may deposit into: inspector 1 feeds buffers 1-3, inspector 2 buffers 4-5. */
    function FirstFed(k: int): int
    {
      if k <= 0 then 0 else if k == 1 then 3 else 5
    }

    /** The inspector that feeds buffer i. */
    function Feeder(i: int): int
    {
      if i < 3 then 0 else 1
    }

    /**
     * What the inspectors' answers to an event did to the buffers: each inspector's deposit landed
     * as its reply asks, and a buffer that the reply of the inspector feeding it does not name is
     * unchanged.
     */
    twostate predicate Deposited(hook: Hook, event: Event)
      reads buffers`size, buffers`items
    {
      && (forall k :: 0 <= k < |inspectors| ==>
            DeliveredTo(DepositTarget(k, behaviour(hook, k, event)), behaviour(hook, k, event)))
      && (forall i :: 0 <= i < |buffers| && DepositTarget(Feeder(i), behaviour(hook, Feeder(i), event)) != i ==>
            buffers[i].items == old(buffers[i].items))
    }

    /**
     * The inspector half of the dispatchers: each inspector answers in turn. The inspectors feed
     * disjoint buffers, so each deposit lands as that inspector's reply asks. With deposits set the
     * contract states so; callers that do not need it leave it unset, which keeps their own proofs
     * small.
     */
    method InspectorsHandle(hook: Hook, event: Event, ghost deposits: bool) returns (events: seq<Event>)
      requires Layout() && SchedulesForward(behaviour) && InspectorSlots() && BuffersOk()
      modifies buffers`size, buffers`items
      ensures BuffersOk()
      ensures events == Somes(InspectorReplies(hook, event))
      ensures NotBefore(events, event.startTime)
      ensures deposits ==> Deposited(hook, event)
    {
      ghost var replies := InspectorReplies(hook, event);
      events := [];
      var k := 0;
      while k < |inspectors|
        invariant 0 <= k <= |inspectors|
        invariant BuffersOk()
        invariant events == Somes(replies[..k])
        invariant forall j :: 0 <= j < k ==>
          DeliveredTo(DepositTarget(j, behaviour(hook, j, event)), behaviour(hook, j, event))
        invariant forall i :: FirstFed(k) <= i < |buffers| ==> buffers[i].items == old(buffers[i].items)
        invariant forall i :: 0 <= i < FirstFed(k) && DepositTarget(Feeder(i), behaviour(hook, Feeder(i), event)) != i ==>
          buffers[i].items == old(buffers[i].items)
      {
        var reply := behaviour(hook, k, event);
        Deliver(k, hook, event);
        if reply.event.Some? {
          events := events + [reply.event.value];
        }
        SomesSnoc(replies, k);
        k := k + 1;
      }
      assert replies[..k] == replies;
      SomesNotBefore(replies, event.startTime);
    }

    /** handleInspectorStarted (Simulation.py:131-145): only the inspectors are asked. */
    method HandleInspectorStarted(event: Event) returns (events: seq<Event>)
      requires Layout() && SchedulesForward(behaviour) && InspectorSlots() && BuffersOk()
      modifies buffers`size, buffers`items
      ensures BuffersOk()
      ensures events == Somes(InspectorReplies(OnInspectorStarted, event))
      ensures NotBefore(events, event.startTime)
      ensures Deposited(OnInspectorStarted, event)
    {
      events := InspectorsHandle(OnInspectorStarted, event, true);
    }

    /** The workstation half of handleInspectorDone: each workstation in turn may ask to start at t. */
    method AskWorkstationsToStart(event: Event) returns (events: seq<Event>)
      requires WorkstationSlots()
      ensures events == Somes(IdleReplies(event.startTime))
      ensures NotBefore(events, event.startTime)
    {
      ghost var replies := IdleReplies(event.startTime);
      events := [];
      var k := 0;
      while k < |workstations|
        invariant 0 <= k <= |workstations|
        invariant events == Somes(replies[..k])
      {
        var reply := workstations[k].HandleInspectorDone(event);
        assert reply == replies[k];
        SomesSnoc(replies, k);
        if reply.Some? {
          events := events + [reply.value];
        }
        assert events == Somes(replies[..k + 1]);
        k := k + 1;
      }
      assert replies[..k] == replies;
      SomesNotBefore(replies, event.startTime);
    }

    /**
     * handleInspectorDone (Simulation.py:147-165): the inspectors answer first, then every
     * workstation asks to start iff it is idle and its buffers are ready.
     */
    method HandleInspectorDone(event: Event) returns (events: seq<Event>)
      requires Valid()
      modifies buffers`size, buffers`items
      ensures Valid()
      ensures events == Somes(InspectorReplies(OnInspectorDone, event)) + Somes(IdleReplies(event.startTime))
      ensures NotBefore(events, event.startTime)
      ensures Deposited(OnInspectorDone, event)
    {
      var fromInspectors := InspectorsHandle(OnInspectorDone, event, true);
      var fromWorkstations := AskWorkstationsToStart(event);
      NotBeforeConcat(fromInspectors, fromWorkstations, event.startTime);
      events := fromInspectors + fromWorkstations;
    }

    /**
     * Workstation a took the start event: busy, its generator advanced once from oldXi, and the
     * reply of Workstation.py:143-174 given whether its buffers were ready.
     */
    ghost predicate StartedAt(a: int, event: Event, r: Result<Option<Event>>, wasReady: bool, oldXi: int)
      requires 0 <= a < |workstations|
      reads workstations`isBusy, workstations[a].randomNumberGenerator
    {
      var w := workstations[a];
      var g := w.randomNumberGenerator;
      && w.isBusy
      && g.xi == Step(oldXi) && g.ri == g.xi as real / M as real
      && (wasReady ==>
            r == Ok(Some(NewWorkstationEvent(event.startTime, event.startTime + exponential(g.ri, g.lmbda), WD, a + 1))))
      && (!wasReady ==> r == Err(EmptyBufferAtStart))
    }

    /**
     * The first k workstations have seen the start event: an event without a workstation id
     * failed at the first of them, the addressed one (if passed) took the event, and before it
     * the addressed workstation still has its readiness and seed.
     */
    ghost predicate StartedBelow(k: int, event: Event, r: Result<Option<Event>>, wasReady: bool, oldXi: int)
      requires Layout() && WorkstationSlots()
      reads workstations`buffers, workstations`currComponents, workstations`isBusy
      reads buffers`size, buffers`items, WorkstationGenerators()
    {
      var a := Addressee(event);
      && 0 <= k <= |workstations|
      && Shapes() && BuffersOk()
      && (!event.WorkstationEvent? ==> r == (if k == 0 then Ok(None) else Err(MissingAttribute)))
      && (event.WorkstationEvent? && !(0 <= a < k) ==> r == Ok(None))
      && (0 <= a && k <= a ==>
            workstations[a].Ready() == wasReady && workstations[a].randomNumberGenerator.xi == oldXi)
      && (0 <= a < k ==> StartedAt(a, event, r, wasReady, oldXi))
    }

    /** Workstation k answers the start event; only its own flag, slots, generator and buffers may change. */
    method AskToStart(k: int, event: Event) returns (reply: Result<Option<Event>>)
      requires |workstations| == 3 && 0 <= k < 3
      requires WorkstationsLaidOut(workstations) && workstations[k].BuffersValid() && Shapes() && BuffersOk()
      modifies workstations[k].Mine(event)`isBusy, workstations[k].Mine(event)`currComponents
      modifies workstations[k].MyGenerator(event)
      modifies workstations[k].MyBuffers(event)`size, workstations[k].MyBuffers(event)`items
      ensures Shapes() && BuffersOk()
      ensures !workstations[k].AddressedBy(event) ==>
        reply == (if event.WorkstationEvent? then Ok(None) else Err(MissingAttribute))
      ensures workstations[k].AddressedBy(event) ==>
        StartedAt(k, event, reply, old(workstations[k].Ready()), old(workstations[k].randomNumberGenerator.xi))
      ensures workstations[k].Valid() && workstations[k].BuffersValid()
      ensures workstations[k].buffers == old(workstations[k].buffers)
      ensures workstations[k].AddressedBy(event) ==> workstations[k].TookComponents()
    {
      var w := workstations[k];
      reply := w.HandleWorkstationStarted(event, exponential);
      forall i | 0 <= i < |buffers| ensures buffers[i].Valid() {
        if buffers[i] in w.buffers {
          var s :| 0 <= s < |w.buffers| && w.buffers[s] == buffers[i];
        }
      }
      forall j | 0 <= j < |workstations| ensures workstations[j].Valid() {
        if j != k {
          assert workstations[j] != w;
        }
      }
    }

    /**
     * One pass of the workstation loop of handleWorkstationStarted: workstation k answers the
     * event, and its answer replaces r when it is an event or a failure.
     */
    method StartOne(k: int, event: Event, r0: Result<Option<Event>>, ghost wasReady: bool, ghost oldXi: int,
                    ghost items0: seq<seq<Component>>, ghost comps0: seq<Component?>)
      returns (r: Result<Option<Event>>)
      requires Layout() && WorkstationSlots() && 0 <= k < |workstations| && r0.Ok?
      requires StartedBelow(k, event, r0, wasReady, oldXi)
      requires TookBelow(k, event, wasReady, items0, comps0)
      modifies workstations[k].Mine(event)`isBusy, workstations[k].Mine(event)`currComponents
      modifies workstations[k].MyGenerator(event)
      modifies workstations[k].MyBuffers(event)`size, workstations[k].MyBuffers(event)`items
      ensures StartedBelow(k + 1, event, r, wasReady, oldXi)
      ensures Addressee(event) == k ==> workstations[k].TookComponents()
      ensures TookBelow(k + 1, event, wasReady, items0, comps0)
    {
      assert workstations[k].BuffersValid();
      var reply := AskToStart(k, event);
      r := if reply.Err? || reply.value.Some? then reply else r0;
      if Addressee(event) == k {
        assert StartedAt(k, event, r, wasReady, oldXi);
      }
    }

    /**
     * The addressed workstation's slots and buffers after the first k passes of the start loop,
     * from its readiness ready0, its buffer contents items0 and its slots comps0: drained as a
     * start drains them once it has been asked, untouched before.
     */
    ghost predicate TookBelow(k: int, event: Event, ready0: bool, items0: seq<seq<Component>>, comps0: seq<Component?>)
      requires |workstations| == 3
      reads workstations, StartingBuffers(event)
    {
      var a := Addressee(event);
      var w := if a == -1 then workstations[0] else workstations[a];
      && (0 <= a < k ==> w.Valid() && w.BuffersValid() && w.TookFrom(ready0, items0, comps0))
      && (0 <= a && k <= a ==>
            && w.Wired() && w.Ready() == ready0 && w.Items() == items0 && w.currComponents == comps0)
    }

    /** The workstation a start event is addressed to, as a frame: one workstation or none. */
    ghost function Starting(event: Event): set<Workstation>
      requires |workstations| == 3
    {
      if Addressee(event) == -1 then {} else {workstations[Addressee(event)]}
    }

    ghost function StartingGenerator(event: Event): set<Generator>
      requires |workstations| == 3
    {
      if Addressee(event) == -1 then {} else {workstations[Addressee(event)].randomNumberGenerator}
    }

    /** The buffers of that workstation, as createWorkstations wires them. */
    ghost function StartingBuffers(event: Event): seq<Buffer?>
      requires |workstations| == 3
      reads workstations`buffers
    {
      if Addressee(event) == -1 then [] else workstations[Addressee(event)].buffers
    }

    /**
     * The workstation loop of handleWorkstationStarted. Its frame names only the addressed
     * workstation, that workstation's generator and its buffers: every other workstation is untouched.
     * With drain set it also states what the addressed workstation took from its buffers; callers
     * that do not need that leave it unset, which keeps their own proofs small.
     */
    method StartWorkstations(event: Event, ghost drain: bool) returns (r: Result<Option<Event>>)
      requires Layout() && WorkstationSlots() && Shapes() && BuffersOk()
      modifies Starting(event)`isBusy, Starting(event)`currComponents, StartingGenerator(event)
      modifies StartingBuffers(event)`size, StartingBuffers(event)`items
      ensures Shapes()
      ensures BuffersOk()
      ensures !event.WorkstationEvent? ==> r == Err(MissingAttribute)
      ensures event.WorkstationEvent? && Addressee(event) == -1 ==> r == Ok(None)
      ensures Addressee(event) != -1 ==>
        StartedAt(Addressee(event), event, r, old(workstations[Addressee(event)].Ready()),
                  old(workstations[Addressee(event)].randomNumberGenerator.xi))
      ensures drain && Addressee(event) != -1 ==> workstations[Addressee(event)].TookComponents()
    {
      ghost var a := Addressee(event);
      ghost var wasReady := a != -1 && workstations[a].Ready();
      ghost var oldXi := if a != -1 then workstations[a].randomNumberGenerator.xi else 0;
      ghost var items0 := if a != -1 then workstations[a].Items() else [];
      ghost var comps0 := if a != -1 then workstations[a].currComponents else [];
      r := Ok(None);
      var k := 0;
      while k < |workstations|
        invariant StartedBelow(k, event, r, wasReady, oldXi) && r.Ok?
        invariant TookBelow(k, event, wasReady, items0, comps0)
      {
        r := StartOne(k, event, r, wasReady, oldXi, items0, comps0);
        if r.Err? {
          return;
        }
        k := k + 1;
      }
    }

    /**
     * handleWorkstationStarted (Simulation.py:167-185): the workstations first, then the
     * inspectors. Only the addressed workstation starts; a failed start ends the dispatch.
     */
    method HandleWorkstationStarted(event: Event) returns (r: Result<seq<Event>>)
      requires Layout() && SchedulesForward(behaviour) && InspectorSlots() && WorkstationSlots() && Shapes()
      requires BuffersOk()
      modifies buffers`size, buffers`items
      modifies Starting(event)`isBusy, Starting(event)`currComponents, StartingGenerator(event)
      ensures Shapes()
      ensures BuffersOk()
      ensures r.Ok? ==> NotBefore(r.value, event.startTime)
      ensures StartReplied(event, r, old(AddresseeReady(event)), old(AddresseeXi(event)))
    {
      var started := StartWorkstations(event, false);
      if started.Err? {
        return Err(started.fault);
      }
      var fromInspectors := InspectorsHandle(OnWorkstationStarted, event, false);
      if started.value.Some? {
        NotBeforeConcat([started.value.value], fromInspectors, event.startTime);
        r := Ok([started.value.value] + fromInspectors);
      } else {
        r := Ok(fromInspectors);
      }
    }

    /** Workstation a took the done event: idle, and the reply of Workstation.py:176-215. */
    ghost predicate FinishedAt(a: int, event: Event, r: Result<Option<Event>>)
      requires 0 <= a < 3 && WorkstationSlots()
      reads workstations`isBusy, workstations`currComponents, workstations`buffers, buffers`size
    {
      var w := workstations[a];
      && !w.isBusy
      && (w.Holding() ==> r == Ok(w.StartIfReady(event.startTime)))
      && (!w.Holding() ==> r == Err(UnsetComponentSlot))
    }

    /**
     * The first k workstations have seen the done event: an event without a workstation id
     * failed at the first of them, and the addressed one, once passed, gave the answer whose
     * event (if any) is all that was collected.
     */
    ghost predicate FinishedBelow(k: int, event: Event, events: seq<Event>, answer: Result<Option<Event>>)
      requires Layout() && WorkstationSlots()
      reads workstations`isBusy, workstations`currComponents, workstations`buffers, buffers`size
    {
      var a := Addressee(event);
      && 0 <= k <= |workstations|
      && (0 < k ==> event.WorkstationEvent?)
      && (!(0 <= a < k) ==> events == [])
      && (0 <= a < k ==> answer.Ok? && FinishedAt(a, event, answer) && events == Somes([answer.value]))
    }

    /** Workstation k answers the done event; only its own counters and held components may change. */
    method AskToFinish(k: int, event: Event) returns (reply: Result<Option<Event>>)
      requires Layout() && WorkstationSlots() && 0 <= k < 3
      modifies workstations[k].Mine(event)`isBusy, workstations[k].Mine(event)`numProductsCreated
      modifies workstations[k].Mine(event)`minutesBusy, workstations[k].Mine(event)`componentsBuilt
      modifies workstations[k].MyComponents(event)
      ensures !workstations[k].AddressedBy(event) ==>
        reply == (if event.WorkstationEvent? then Ok(None) else Err(MissingAttribute))
      ensures workstations[k].AddressedBy(event) ==> FinishedAt(k, event, reply) && workstations[k].DoneWith(event)
    {
      reply := workstations[k].HandleWorkstationDone(event);
    }

    /**
     * One pass of the workstation loop of handleWorkstationDone: workstation k answers the event
     * and an event it asks for is appended to the collected ones.
     */
    method FinishOne(k: int, event: Event, events0: seq<Event>, ghost answer0: Result<Option<Event>>,
                     ghost products0: int, ghost minutes0: real, ghost built0: seq<Component>)
      returns (reply: Result<Option<Event>>, events: seq<Event>, ghost answer: Result<Option<Event>>)
      requires Layout() && WorkstationSlots() && 0 <= k < 3
      requires FinishedBelow(k, event, events0, answer0)
      requires DoneBelow(k, event, products0, minutes0, built0)
      modifies workstations[k].Mine(event)`isBusy, workstations[k].Mine(event)`numProductsCreated
      modifies workstations[k].Mine(event)`minutesBusy, workstations[k].Mine(event)`componentsBuilt
      modifies workstations[k].MyComponents(event)
      ensures !event.WorkstationEvent? ==> k == 0 && reply == Err(MissingAttribute)
      ensures reply.Err? && event.WorkstationEvent? ==> Addressee(event) == k && FinishedAt(k, event, reply)
      ensures reply.Ok? ==> FinishedBelow(k + 1, event, events, answer)
      ensures Addressee(event) == k ==> workstations[k].DoneWith(event)
      ensures DoneBelow(k + 1, event, products0, minutes0, built0)
    {
      reply := AskToFinish(k, event);
      events := events0;
      answer := answer0;
      if reply.Ok? {
        if reply.value.Some? {
          events := events + [reply.value.value];
        }
        if k == Addressee(event) {
          answer := reply;
        }
      }
    }

    /**
     * The addressed workstation's counters and log after the first k passes of the done loop,
     * from products0 products, minutes0 minutes busy and the log built0: finished once it has
     * been asked, untouched before.
     */
    ghost predicate DoneBelow(k: int, event: Event, products0: int, minutes0: real, built0: seq<Component>)
      requires |workstations| == 3
      reads workstations, FinishingComponents(event)
    {
      var a := Addressee(event);
      && (0 <= a < k ==> workstations[a].DoneFrom(event, products0, minutes0, built0))
      && (0 <= a && k <= a ==>
            && workstations[a].numProductsCreated == products0 && workstations[a].minutesBusy == minutes0
            && workstations[a].componentsBuilt == built0)
    }

    /** The workstation a done event is addressed to, as a frame, and the components it holds. */
    ghost function FinishingComponents(event: Event): seq<Component?>
      requires |workstations| == 3
      reads workstations`currComponents
    {
      if Addressee(event) == -1 then [] else workstations[Addressee(event)].currComponents
    }

    /**
     * handleWorkstationDone (Simulation.py:187-201): only the workstations are asked. Its frame
     * names only the addressed workstation and the components it holds. With done set it also
     * states the addressed workstation's new counters and log; callers that do not need them
     * leave it unset, which keeps their own proofs small.
     */
    method HandleWorkstationDone(event: Event, ghost done: bool) returns (r: Result<seq<Event>>)
      requires Layout() && WorkstationSlots()
      modifies Starting(event)`isBusy, Starting(event)`numProductsCreated, Starting(event)`minutesBusy
      modifies Starting(event)`componentsBuilt, FinishingComponents(event)
      ensures r.Ok? ==> NotBefore(r.value, event.startTime)
      ensures !event.WorkstationEvent? ==> r == Err(MissingAttribute)
      ensures event.WorkstationEvent? && Addressee(event) == -1 ==> r == Ok([])
      ensures Addressee(event) != -1 ==>
        var w := workstations[Addressee(event)];
        && !w.isBusy
        && (w.Holding() ==> r == Ok(Somes([w.StartIfReady(event.startTime)])))
        && (!w.Holding() ==> r == Err(UnsetComponentSlot))
      ensures done && Addressee(event) != -1 ==> workstations[Addressee(event)].DoneWith(event)
    {
      ghost var a := Addressee(event);
      ghost var products0, minutes0, built0 := 0, 0.0, [];
      if a != -1 {
        products0, minutes0, built0 := workstations[a].numProductsCreated, workstations[a].minutesBusy, workstations[a].componentsBuilt;
      }
      ghost var answer: Result<Option<Event>> := Ok(None);
      var events: seq<Event> := [];
      var k := 0;
      while k < |workstations|
        invariant FinishedBelow(k, event, events, answer)
        invariant DoneBelow(k, event, products0, minutes0, built0)
      {
        var reply;
        reply, events, answer := FinishOne(k, event, events, answer, products0, minutes0, built0);
        if reply.Err? {
          return Err(reply.fault);
        }
        k := k + 1;
      }
      r := Ok(events);
    }

    /** Components in the system: those in the buffers, one in each inspector's hands, and those being assembled. */
    function InSystem(): int
      reads buffers`size, workstations`isBusy, workstations`buffers
    {
      SizeSum(buffers) + |inspectors| + BusySlots(workstations)
    }

    /** Each inspector always holds one component, and at most every buffer place and workstation slot is filled. */
    lemma InSystemBounds()
      requires Layout() && WorkstationSlots() && BuffersOk()
      ensures |inspectors| <= InSystem() <= |inspectors| + |buffers| * MaxBufferSize + 5
    {
      SizeSumBounds(buffers);
      var ws := workstations;
      assert ws[..1][..0] == [];
      assert BusySlots(ws[..1]) <= 1;
      assert ws[..2][..1] == ws[..1];
      assert BusySlots(ws[..2]) <= 3;
      assert ws[..3][..2] == ws[..2] && ws[..3] == ws;
    }

    /** addBufferOccupancies (Simulation.py:203-212): every buffer adds what it held over elapsed. */
    method AddBufferOccupancies(elapsed: real)
      requires Layout()
      modifies buffers`cumulativeOcc
      ensures forall i :: 0 <= i < |buffers| ==>
        buffers[i].cumulativeOcc == old(buffers[i].cumulativeOcc) + buffers[i].OccupancyGain(elapsed)
    {
      BuffersDistinct(buffers);
      var i := 0;
      while i < |buffers|
        invariant 0 <= i <= |buffers|
        invariant forall j :: 0 <= j < i ==>
          buffers[j].cumulativeOcc == old(buffers[j].cumulativeOcc) + buffers[j].OccupancyGain(elapsed)
        invariant forall j :: i <= j < |buffers| ==> buffers[j].cumulativeOcc == old(buffers[j].cumulativeOcc)
      {
        buffers[i].AccumulateOcc(elapsed);
        i := i + 1;
      }
    }

    /** The buffer loop of addAverageInSystem (Simulation.py:215-216). */
    method AddBufferedTime(elapsed: real)
      modifies this`totalComponentTime
      ensures totalComponentTime == old(totalComponentTime) + Weighted(SizeSum(buffers), elapsed)
    {
      var i := 0;
      while i < |buffers|
        invariant 0 <= i <= |buffers|
        invariant totalComponentTime == old(totalComponentTime) + Weighted(SizeSum(buffers[..i]), elapsed)
      {
        assert buffers[..i + 1][..i] == buffers[..i];
        var size := buffers[i].size;
        WeightedIsProduct(size, elapsed);
        WeightedAdd(SizeSum(buffers[..i]), size, elapsed);
        totalComponentTime := totalComponentTime + size as real * elapsed;
        i := i + 1;
      }
      assert buffers[..i] == buffers;
    }

    /** The inspector loop of addAverageInSystem (Simulation.py:218-219): each inspector holds one component. */
    method AddHeldTime(elapsed: real)
      modifies this`totalComponentTime
      ensures totalComponentTime == old(totalComponentTime) + Weighted(|inspectors|, elapsed)
    {
      var i := 0;
      while i < |inspectors|
        invariant 0 <= i <= |inspectors|
        invariant totalComponentTime == old(totalComponentTime) + Weighted(i, elapsed)
      {
        totalComponentTime := totalComponentTime + elapsed;
        i := i + 1;
      }
    }

    /** The workstation loop of addAverageInSystem (Simulation.py:221-223): only busy workstations count. */
    method AddAssemblingTime(elapsed: real)
      modifies this`totalComponentTime
      ensures totalComponentTime == old(totalComponentTime) + Weighted(BusySlots(workstations), elapsed)
    {
      var i := 0;
      while i < |workstations|
        invariant 0 <= i <= |workstations|
        invariant totalComponentTime == old(totalComponentTime) + Weighted(BusySlots(workstations[..i]), elapsed)
      {
        assert workstations[..i + 1][..i] == workstations[..i];
        var slots: int := workstations[i].NumComponents();
        if workstations[i].isBusy {
          WeightedIsProduct(slots, elapsed);
          WeightedAdd(BusySlots(workstations[..i]), slots, elapsed);
          totalComponentTime := totalComponentTime + slots as real * elapsed;
        }
        i := i + 1;
      }
      assert workstations[..i] == workstations;
    }

    /** addAverageInSystem (Simulation.py:214-223): the time-weighted count of components in the system. */
    method AddAverageInSystem(elapsed: real)
      modifies this`totalComponentTime
      ensures totalComponentTime == old(totalComponentTime) + Weighted(InSystem(), elapsed)
    {
      AddBufferedTime(elapsed);
      AddHeldTime(elapsed);
      AddAssemblingTime(elapsed);
      WeightedAdd(SizeSum(buffers), |inspectors|, elapsed);
      WeightedAdd(SizeSum(buffers) + |inspectors|, BusySlots(workstations), elapsed);
    }

    /** Every buffer, inspector and workstation counts its statistics. */
    ghost predicate Steady()
      reads buffers`isSteadyState, inspectors`isSteadyState, workstations`isSteadyState
    {
      && (forall i :: 0 <= i < |buffers| ==> buffers[i].isSteadyState)
      && (forall i :: 0 <= i < |inspectors| ==> inspectors[i].isSteadyState)
      && (forall i :: 0 <= i < |workstations| ==> workstations[i].isSteadyState)
    }

    /** setSteadyState (Simulation.py:225-233): the warm-up is over for everything in the line. */
    method SetSteadyState()
      modifies buffers`isSteadyState, inspectors`isSteadyState, workstations`isSteadyState
      ensures Steady()
    {
      var i := 0;
      while i < |buffers|
        invariant 0 <= i <= |buffers|
        invariant forall j :: 0 <= j < i ==> buffers[j].isSteadyState
      {
        buffers[i].SetSteadyState(true);
        i := i + 1;
      }
      i := 0;
      while i < |inspectors|
        invariant 0 <= i <= |inspectors|
        invariant forall j :: 0 <= j < |buffers| ==> buffers[j].isSteadyState
        invariant forall j :: 0 <= j < i ==> inspectors[j].isSteadyState
      {
        inspectors[i].SetSteadyState(true);
        i := i + 1;
      }
      i := 0;
      while i < |workstations|
        invariant 0 <= i <= |workstations|
        invariant forall j :: 0 <= j < |buffers| ==> buffers[j].isSteadyState
        invariant forall j :: 0 <= j < |inspectors| ==> inspectors[j].isSteadyState
        invariant forall j :: 0 <= j < i ==> workstations[j].isSteadyState
      {
        workstations[i].SetSteadyState(true);
        i := i + 1;
      }
    }

    /** xis holds, under each seed key, the current seed of the generator created from that key. */
    ghost predicate Grabbed()
      requires InspectorsLaidOut(inspectors) && |workstations| == 3
      reads this`xis, inspectors[0].generators[0], inspectors[1].generators[0], inspectors[1].generators[1]
      reads WorkstationGenerators()
    {
      && SeedKeys <= xis.Keys
      && xis[0] == inspectors[0].generators[0].xi
      && xis[100000] == inspectors[1].generators[0].xi
      && xis[200000] == inspectors[1].generators[1].xi
      && xis[300000] == workstations[0].randomNumberGenerator.xi
      && xis[400000] == workstations[1].randomNumberGenerator.xi
      && xis[500000] == workstations[2].randomNumberGenerator.xi
    }

    /**
     * grabXis (Simulation.py:238-244): the seeds the streams have reached, under the keys the
     * constructor read them from, so that they can seed the next replication.
     */
    method GrabXis()
      requires InspectorsLaidOut(inspectors) && |workstations| == 3
      modifies this`xis
      ensures Grabbed()
      ensures xis.Keys == old(xis.Keys) + SeedKeys
      ensures forall k :: k in old(xis) && k !in SeedKeys ==> xis[k] == old(xis[k])
    {
      xis := xis[0 := inspectors[0].generators[0].xi];
      xis := xis[100000 := inspectors[1].generators[0].xi];
      xis := xis[200000 := inspectors[1].generators[1].xi];
      xis := xis[300000 := workstations[0].randomNumberGenerator.xi];
      xis := xis[400000 := workstations[1].randomNumberGenerator.xi];
      xis := xis[500000 := workstations[2].randomNumberGenerator.xi];
    }

    /** The workstation loop of getStatistics (Simulation.py:406-409): busy percentages, and the product count. */
    method RecordBusy(rep: Replication) returns (totalProducts: int)
      requires rep.Valid() && rep.probabilityWorkstationBusy == Empty
      modifies rep`probabilityWorkstationBusy
      ensures rep.Valid() && rep.probabilityWorkstationBusy == old(BusyTable(workstations))
      ensures totalProducts == old(TotalProducts(workstations))
    {
      ghost var ids, vs, cs := WorkstationIds(workstations), BusyShares(workstations), ProductCounts(workstations);
      totalProducts := 0;
      var k := 0;
      while k < |workstations|
        invariant 0 <= k <= |workstations|
        invariant rep.Valid() && rep.probabilityWorkstationBusy == Table(ids[..k], vs[..k])
        invariant totalProducts == Sum(cs[..k])
      {
        var w := workstations[k];
        assert ids[k] == w.id && vs[k] == Percent(w.minutesBusy) && cs[k] == w.numProductsCreated;
        assert cs[..k + 1][..k] == cs[..k];
        TableSnoc(ids, vs, k);
        rep.AddWorkstationBusyProbability(w.id, Percent(w.minutesBusy));
        totalProducts := totalProducts + w.numProductsCreated;
        k := k + 1;
      }
      assert ids[..k] == ids && vs[..k] == vs && cs[..k] == cs;
    }

    /** The inspector loop of getStatistics (Simulation.py:410-412): blocked percentages. */
    method RecordBlocked(rep: Replication)
      requires rep.Valid() && rep.probabilityInspectorBlocked == Empty
      modifies rep`probabilityInspectorBlocked
      ensures rep.Valid() && rep.probabilityInspectorBlocked == old(BlockedTable(inspectors))
    {
      ghost var ids, vs := InspectorIds(inspectors), BlockedShares(inspectors);
      var k := 0;
      while k < |inspectors|
        invariant 0 <= k <= |inspectors|
        invariant rep.Valid() && rep.probabilityInspectorBlocked == Table(ids[..k], vs[..k])
      {
        assert ids[k] == inspectors[k].id && vs[k] == Percent(inspectors[k].timeBlocked);
        TableSnoc(ids, vs, k);
        rep.AddInspectorBlockedProbability(inspectors[k].id, Percent(inspectors[k].timeBlocked));
        k := k + 1;
      }
      assert ids[..k] == ids && vs[..k] == vs;
    }

    /** The buffer loop of getStatistics (Simulation.py:413-415): average occupancies. */
    method RecordOccupancy(rep: Replication)
      requires rep.Valid() && rep.avgBufferOccup == Empty
      modifies rep`avgBufferOccup
      ensures rep.Valid() && rep.avgBufferOccup == old(OccupancyTable(buffers))
    {
      ghost var ids, vs := BufferIds(buffers), OccupancyShares(buffers);
      var k := 0;
      while k < |buffers|
        invariant 0 <= k <= |buffers|
        invariant rep.Valid() && rep.avgBufferOccup == Table(ids[..k], vs[..k])
      {
        assert ids[k] == buffers[k].id && vs[k] == PerMinute(buffers[k].cumulativeOcc);
        TableSnoc(ids, vs, k);
        rep.AddAvgBufferOccupancy(buffers[k].id, PerMinute(buffers[k].cumulativeOcc));
        k := k + 1;
      }
      assert ids[..k] == ids && vs[..k] == vs;
    }

    /**
     * getStatistics (Simulation.py:403-418): a fresh replication record holding the busy,
     * blocked and occupancy tables and the throughput over the steady-state window.
     */
    method GetStatistics() returns (rep: Replication)
      ensures fresh(rep) && rep.Valid()
      ensures rep.throughput == old(PerMinute(TotalProducts(workstations) as real))
      ensures rep.probabilityWorkstationBusy == old(BusyTable(workstations))
      ensures rep.probabilityInspectorBlocked == old(BlockedTable(inspectors))
      ensures rep.avgBufferOccup == old(OccupancyTable(buffers))
    {
      ghost var busy, blocked, occupancy := BusyTable(workstations), BlockedTable(inspectors), OccupancyTable(buffers);
      rep := new Replication();
      assert BusyTable(workstations) == busy && BlockedTable(inspectors) == blocked && OccupancyTable(buffers) == occupancy;
      var totalProducts := RecordBusy(rep);
      assert BlockedTable(inspectors) == blocked && OccupancyTable(buffers) == occupancy;
      RecordBlocked(rep);
      assert OccupancyTable(buffers) == occupancy;
      RecordOccupancy(rep);
      rep.SetThroughput(PerMinute(totalProducts as real));
    }

    /**
     * The head of run's loop (Simulation.py:258-267): the next event leaves the FEL, the buffers'
     * occupancy and the count of components in the system are weighted by the minutes since the
     * previous event, and the clock moves to the event's start.
     */
    method Advance() returns (event: Event)
      requires Valid() && fel != []
      modifies this`fel, this`clock, this`totalComponentTime, buffers`cumulativeOcc
      ensures Valid()
      ensures event == old(fel[0]) && fel == old(fel[1..])
      ensures clock == event.startTime && old(clock) <= clock
      ensures totalComponentTime == old(totalComponentTime) + Weighted(InSystem(), clock - old(clock))
      ensures forall i :: 0 <= i < |buffers| ==>
        buffers[i].cumulativeOcc == old(buffers[i].cumulativeOcc) + buffers[i].OccupancyGain(clock - old(clock))
    {
      PopFront(fel);
      event := fel[0];
      fel := fel[1..];
      var elapsed := event.startTime - clock;
      Elapse(elapsed);
      clock := event.startTime;
    }

    /** The statistics step of run (Simulation.py:265-266): the buffer integrals, then the in-system integral. */
    method Elapse(elapsed: real)
      requires Layout()
      modifies this`totalComponentTime, buffers`cumulativeOcc
      ensures totalComponentTime == old(totalComponentTime) + Weighted(InSystem(), elapsed)
      ensures forall i :: 0 <= i < |buffers| ==>
        buffers[i].cumulativeOcc == old(buffers[i].cumulativeOcc) + buffers[i].OccupancyGain(elapsed)
    {
      AddBufferOccupancies(elapsed);
      AddAverageInSystem(elapsed);
    }

    /** The IS branch of run (Simulation.py:269-274): the inspectors' events join the FEL. */
    method DispatchInspectorStarted(event: Event) returns (ghost scheduled: seq<Event>)
      requires Valid() && event.startTime == clock
      modifies this`fel, buffers`size, buffers`items
      ensures Valid() && clock == event.startTime
      ensures scheduled == Somes(InspectorReplies(OnInspectorStarted, event))
      ensures NotBefore(scheduled, clock) && fel == SortByStart(old(fel) + scheduled)
      ensures old(HasShutdown()) ==> HasShutdown()
      ensures Deposited(OnInspectorStarted, event)
    {
      var events := HandleInspectorStarted(event);
      Enqueue(events);
      scheduled := events;
    }

    /** The ID branch of run (Simulation.py:275-280): the inspectors' and the workstations' events join the FEL. */
    method DispatchInspectorDone(event: Event) returns (ghost scheduled: seq<Event>)
      requires Valid() && event.startTime == clock
      modifies this`fel, buffers`size, buffers`items
      ensures Valid() && clock == event.startTime
      ensures scheduled == Somes(InspectorReplies(OnInspectorDone, event)) + Somes(IdleReplies(event.startTime))
      ensures NotBefore(scheduled, clock) && fel == SortByStart(old(fel) + scheduled)
      ensures old(HasShutdown()) ==> HasShutdown()
      ensures Deposited(OnInspectorDone, event)
    {
      var events := HandleInspectorDone(event);
      Enqueue(events);
      scheduled := events;
    }

    /** Whether the workstation a start event is addressed to has every buffer ready (false when there is none). */
    ghost function AddresseeReady(event: Event): bool
      requires Layout() && WorkstationSlots()
      reads workstations`buffers, buffers`size
    {
      Addressee(event) != -1 && workstations[Addressee(event)].Ready()
    }

    /** The generator state of the workstation an event is addressed to (0 when there is none). */
    ghost function AddresseeXi(event: Event): int
      requires |workstations| == 3
      reads WorkstationGenerators()
    {
      if Addressee(event) == -1 then 0 else workstations[Addressee(event)].randomNumberGenerator.xi
    }

    /**
     * What the workstations and inspectors answer to a started event, given whether the addressed
     * workstation was ready and its generator state before: a workstation event is required; the
     * addressed workstation is busy and its generator has taken one step; a ready one asks to be
     * done one service time later, ahead of the inspectors' events, and an unready one fails.
     */
    ghost predicate StartReplied(event: Event, r: Result<seq<Event>>, wasReady: bool, oldXi: int)
      requires Layout()
      reads workstations`isBusy, WorkstationGenerators()
    {
      var a := Addressee(event);
      && (!event.WorkstationEvent? ==> r == Err(MissingAttribute))
      && (event.WorkstationEvent? && a == -1 ==> r == Ok(Somes(InspectorReplies(OnWorkstationStarted, event))))
      && (a != -1 ==>
            && workstations[a].isBusy && workstations[a].randomNumberGenerator.xi == Step(oldXi)
            && (wasReady ==> r == Ok([ServiceDone(a, event, oldXi)] + Somes(InspectorReplies(OnWorkstationStarted, event))))
            && (!wasReady ==> r == Err(EmptyBufferAtStart)))
    }

    /**
     * The done event workstation a schedules when it starts at the event's time: one service
     * time later, the service time drawn from the variate that follows oldXi in its stream.
     */
    ghost function ServiceDone(a: int, event: Event, oldXi: int): Event
      requires 0 <= a < |workstations|
    {
      var variate := Step(oldXi) as real / M as real;
      NewWorkstationEvent(event.startTime, event.startTime + exponential(variate, workstations[a].randomNumberGenerator.lmbda), WD, a + 1)
    }

    /**
     * What the WS branch schedules, given whether the addressed workstation was ready and its
     * generator state before: its done event one service time later, then the inspectors' events;
     * only the inspectors' events when no workstation is addressed; a fault when the start fails.
     */
    ghost predicate StartScheduled(event: Event, r: Result<bool>, scheduled: seq<Event>, wasReady: bool, oldXi: int)
      requires Layout()
      reads workstations`isBusy, WorkstationGenerators()
    {
      && (r.Ok? ==> r == Ok(false))
      && StartReplied(event, if r.Ok? then Ok(scheduled) else Err(r.fault), wasReady, oldXi)
    }

    /**
     * What the WD branch schedules: the addressed workstation is idle and asks to start again iff
     * its buffers are ready; nothing when no workstation is addressed; a fault on an unset slot.
     */
    ghost predicate DoneScheduled(event: Event, r: Result<bool>, scheduled: seq<Event>)
      requires Layout() && WorkstationSlots()
      reads workstations`isBusy, workstations`currComponents, workstations`buffers, buffers`size
    {
      var a := Addressee(event);
      && (!event.WorkstationEvent? ==> r == Err(MissingAttribute))
      && (event.WorkstationEvent? && a == -1 ==> r == Ok(false) && scheduled == [])
      && (a != -1 ==>
            var w := workstations[a];
            && !w.isBusy
            && (w.Holding() ==> r == Ok(false) && scheduled == Somes([w.StartIfReady(event.startTime)]))
            && (!w.Holding() ==> r == Err(UnsetComponentSlot)))
    }

    /** The WS branch of run (Simulation.py:281-286); a fault raised by the handler leaves the FEL as it was. */
    method DispatchWorkstationStarted(event: Event) returns (r: Result<bool>, ghost scheduled: seq<Event>)
      requires Valid() && event.startTime == clock
      modifies this`fel, buffers`size, buffers`items
      modifies Starting(event)`isBusy, Starting(event)`currComponents, StartingGenerator(event)
      ensures Valid() && clock == event.startTime
      ensures StartScheduled(event, r, scheduled, old(AddresseeReady(event)), old(AddresseeXi(event)))
      ensures r.Ok? ==> NotBefore(scheduled, clock) && fel == SortByStart(old(fel) + scheduled)
      ensures r.Err? ==> fel == old(fel)
      ensures old(HasShutdown()) ==> HasShutdown()
    {
      ghost var wasReady, oldXi := AddresseeReady(event), AddresseeXi(event);
      var handled := HandleWorkstationStarted(event);
      if handled.Ok? {
        r, scheduled := Ok(false), handled.value;
        assert StartScheduled(event, r, scheduled, wasReady, oldXi);
        Enqueue(handled.value);
      } else {
        r, scheduled := Err(handled.fault), [];
      }
    }

    /** The WD branch of run (Simulation.py:287-292); a fault raised by the handler leaves the FEL as it was. */
    method DispatchWorkstationDone(event: Event) returns (r: Result<bool>, ghost scheduled: seq<Event>)
      requires Valid() && event.startTime == clock
      modifies this`fel
      modifies Starting(event)`isBusy, Starting(event)`numProductsCreated, Starting(event)`minutesBusy
      modifies Starting(event)`componentsBuilt, FinishingComponents(event)
      ensures Valid() && clock == event.startTime
      ensures DoneScheduled(event, r, scheduled)
      ensures r.Ok? ==> NotBefore(scheduled, clock) && fel == SortByStart(old(fel) + scheduled)
      ensures r.Err? ==> fel == old(fel)
      ensures old(HasShutdown()) ==> HasShutdown()
      ensures Addressee(event) != -1 ==> workstations[Addressee(event)].DoneWith(event)
    {
      var handled := HandleWorkstationDone(event, true);
      ValidKept();
      if handled.Err? {
        return Err(handled.fault), [];
      }
      Enqueue(handled.value);
      r, scheduled := Ok(false), handled.value;
    }

    /** The SSS branch of run (Simulation.py:293-294). */
    method DispatchSteadyState()
      requires Valid()
      modifies buffers`isSteadyState, inspectors`isSteadyState, workstations`isSteadyState
      ensures Valid() && Steady()
    {
      SetSteadyState();
    }

    /**
     * The frame of dispatching an event, by kind. The buffers' contents change on IS and ID (the
     * inspectors' deposits) and on WS (the drain, then the deposits); the steady-state flags only
     * on SSS; the addressed workstation only on WS and WD; its generator only on WS; the
     * components it holds only on WD, when they are stamped. SD changes none of these.
     */
    ghost function Restocked(event: Event): seq<Buffer>
    {
      When(event.eventType in {IS, ID, WS}, buffers)
    }

    ghost function Addressed(event: Event): set<Workstation>
      requires |workstations| == 3
    {
      if event.eventType in {WS, WD} then Starting(event) else {}
    }

    ghost function Drawn(event: Event): set<Generator>
      requires |workstations| == 3
    {
      if event.eventType == WS then StartingGenerator(event) else {}
    }

    ghost function Stamped(event: Event): seq<Component?>
      requires |workstations| == 3
      reads workstations`currComponents
    {
      if event.eventType == WD then FinishingComponents(event) else []
    }

    /** The next event run's loop takes (a shutdown stand-in when there is none, whose frame is empty). */
    ghost function Head(): Event
      reads this`fel
    {
      if fel == [] then Plain(0.0, 0.0, SD) else fel[0]
    }

    /**
     * What the dispatch of an event schedules, by kind: IS asks the inspectors, ID the inspectors
     * and then the workstations, WS the addressed workstation and then the inspectors, WD the
     * addressed workstation; SSS and SD schedule nothing, and only SD ends the loop.
     */
    ghost predicate Routed(event: Event, r: Result<bool>, scheduled: seq<Event>, wasReady: bool, oldXi: int)
      requires Layout() && WorkstationSlots()
      reads workstations, buffers, WorkstationGenerators()
    {
      && (r == Ok(true) <==> event.eventType == SD)
      && (r.Err? ==> event.eventType in {WS, WD} && r.fault != EmptyFutureEventList)
      && (event.eventType == IS ==> r == Ok(false) && scheduled == Somes(InspectorReplies(OnInspectorStarted, event)))
      && (event.eventType == ID ==>
            r == Ok(false) && scheduled == Somes(InspectorReplies(OnInspectorDone, event)) + Somes(IdleReplies(event.startTime)))
      && (event.eventType == WS ==> StartScheduled(event, r, scheduled, wasReady, oldXi))
      && (event.eventType == WD ==> DoneScheduled(event, r, scheduled))
    }

    /**
     * The dispatch of run's loop (Simulation.py:269-298) for an event the clock has reached.
     * Ok(true) reports the shutdown event; only the workstation handlers raise.
     */
    method Dispatch(event: Event, ghost wasReady: bool, ghost oldXi: int) returns (r: Result<bool>, ghost scheduled: seq<Event>)
      requires Valid() && event.startTime == clock
      requires wasReady == AddresseeReady(event) && oldXi == AddresseeXi(event)
      modifies this`fel, Restocked(event)`size, Restocked(event)`items
      modifies When(event.eventType == SSS, buffers)`isSteadyState, When(event.eventType == SSS, inspectors)`isSteadyState
      modifies When(event.eventType == SSS, workstations)`isSteadyState, Addressed(event), Drawn(event), Stamped(event)
      ensures Valid() && clock == event.startTime
      ensures Routed(event, r, scheduled, wasReady, oldXi)
      ensures event.eventType in {SD, SSS} ==> fel == old(fel)
      ensures event.eventType == SSS ==> Steady()
      ensures event.eventType !in {SD, SSS} && r.Ok? ==>
        NotBefore(scheduled, clock) && fel == SortByStart(old(fel) + scheduled)
      ensures r == Ok(false) && old(HasShutdown()) ==> HasShutdown()
      ensures event.eventType == IS ==> Deposited(OnInspectorStarted, event)
      ensures event.eventType == ID ==> Deposited(OnInspectorDone, event)
      ensures event.eventType == WD && Addressee(event) != -1 ==> workstations[Addressee(event)].DoneWith(event)
    {
      scheduled := [];
      match event.eventType {
        case IS =>
          scheduled := DispatchInspectorStarted(event);
          r := Ok(false);
        case ID =>
          scheduled := DispatchInspectorDone(event);
          r := Ok(false);
        case WS =>
          r, scheduled := DispatchWorkstationStarted(event);
        case WD =>
          r, scheduled := DispatchWorkstationDone(event);
        case SSS =>
          DispatchSteadyState();
          r := Ok(false);
        case SD =>
          r := Ok(true);
      }
    }

    /**
     * One pass of run's loop (Simulation.py:258-298) on a non-empty FEL: pop the next event,
     * advance the clock and the statistics to it, and dispatch it.
     */
    method HandleNext(ghost head: Event) returns (r: Result<bool>, ghost event: Event, ghost scheduled: seq<Event>)
      requires Valid() && fel != [] && head == fel[0]
      modifies this`clock, this`totalComponentTime, buffers`cumulativeOcc
      modifies this`fel, Restocked(head)`size, Restocked(head)`items
      modifies When(head.eventType == SSS, buffers)`isSteadyState, When(head.eventType == SSS, inspectors)`isSteadyState
      modifies When(head.eventType == SSS, workstations)`isSteadyState, Addressed(head), Drawn(head), Stamped(head)
      ensures Valid()
      ensures event == old(fel[0]) && clock == event.startTime && old(clock) <= clock
      ensures Routed(event, r, scheduled, old(AddresseeReady(event)), old(AddresseeXi(event)))
      ensures event.eventType in {SD, SSS} ==> fel == old(fel[1..])
      ensures event.eventType == SSS ==> Steady()
      ensures event.eventType !in {SD, SSS} && r.Ok? ==>
        NotBefore(scheduled, clock) && fel == SortByStart(old(fel[1..]) + scheduled)
      ensures r == Ok(false) && old(HasShutdown()) ==> HasShutdown()
    {
      PopFront(fel);
      ghost var wasReady, oldXi := AddresseeReady(head), AddresseeXi(head);
      var next := Advance();
      assert Stamped(next) == old(Stamped(head));
      event := next;
      r, scheduled := Dispatch(next, wasReady, oldXi);
    }

    /** One pass of run's loop (Simulation.py:258-298). A pop from an empty FEL raises. */
    method ProcessNext() returns (r: Result<bool>, ghost event: Event, ghost scheduled: seq<Event>)
      requires Valid()
      modifies this`clock, this`totalComponentTime, buffers`cumulativeOcc
      modifies this`fel, Restocked(Head())`size, Restocked(Head())`items
      modifies When(Head().eventType == SSS, buffers)`isSteadyState, When(Head().eventType == SSS, inspectors)`isSteadyState
      modifies When(Head().eventType == SSS, workstations)`isSteadyState, Addressed(Head()), Drawn(Head()), Stamped(Head())
      ensures Valid()
      ensures r == Err(EmptyFutureEventList) <==> old(fel) == []
      ensures old(fel) != [] ==>
        && event == old(fel[0]) && clock == event.startTime && old(clock) <= clock
        && Routed(event, r, scheduled, old(AddresseeReady(event)), old(AddresseeXi(event)))
        && (event.eventType in {SD, SSS} ==> fel == old(fel[1..]))
        && (event.eventType == SSS ==> Steady())
        && (event.eventType !in {SD, SSS} && r.Ok? ==>
              NotBefore(scheduled, clock) && fel == SortByStart(old(fel[1..]) + scheduled))
      ensures r == Ok(false) && old(HasShutdown()) ==> HasShutdown()
    {
      if fel == [] {
        return Err(EmptyFutureEventList), Plain(0.0, 0.0, SD), [];
      }
      r, event, scheduled := HandleNext(fel[0]);
    }

    /** The end of run (Simulation.py:299-300): the generators' seeds are recorded and the line is left as it was. */
    method Finish()
      requires InspectorsLaidOut(inspectors) && |workstations| == 3
      modifies this`xis
      ensures old(Valid()) ==> Valid()
      ensures Grabbed()
    {
      GrabXis();
    }

    /**
     * What handling the earliest event did, from the state before to the state after: the event
     * was routed to its handlers with outcome r and the events they scheduled, and the FEL lost
     * the event and, unless it was SD or SSS or its handler raised, gained those events in start
     * order.
     */
    twostate predicate Handled(event: Event, r: Result<bool>, scheduled: seq<Event>)
      requires old(Valid()) && Valid()
      reads this, buffers, inspectors, workstations, WorkstationGenerators()
    {
      && old(fel) != []
      && Routed(event, r, scheduled, old(AddresseeReady(event)), old(AddresseeXi(event)))
      && (event.eventType in {SD, SSS} ==> fel == old(fel[1..]))
      && (event.eventType == SSS ==> Steady())
      && (event.eventType !in {SD, SSS} && r.Ok? ==>
            NotBefore(scheduled, clock) && fel == SortByStart(old(fel[1..]) + scheduled))
    }

    /**
     * One pass of run's loop (Simulation.py:256-298) while the shutdown event is still pending: the
     * FEL is not empty, so the earliest event is handled; only SD ends the run, and only WS and WD raise.
     * With detail set it also states how the event was handled; the loop of run leaves it unset,
     * which keeps its own proof small.
     */
    method RunOnce(ghost detail: bool) returns (r: Result<bool>, ghost event: Event, ghost scheduled: seq<Event>)
      requires Valid() && HasShutdown()
      modifies this`clock, this`totalComponentTime, this`fel, buffers, inspectors`isSteadyState
      modifies workstations, WorkstationGenerators()
      modifies iset c: Component | AnyComponent(c)
      ensures Valid() && old(clock) <= clock
      ensures event == old(fel[0]) && clock == event.startTime
      ensures r != Err(EmptyFutureEventList)
      ensures r == Ok(true) <==> event.eventType == SD
      ensures r.Err? ==> event.eventType in {WS, WD}
      ensures r == Ok(false) ==> HasShutdown()
      ensures detail ==> Handled(event, r, scheduled)
    {
      assert fel != [];
      r, event, scheduled := ProcessNext();
    }

    /**
     * The loop of run (Simulation.py:256-298) for at most fuel events: handle events until the
     * shutdown event. With the shutdown still scheduled the FEL is never found empty. handled is
     * the events taken off the FEL, in the order run took them: the first pending event first, in
     * time order, ending with the shutdown event when the run completes, with the event whose
     * handler raised when it fails, and with no shutdown event before either.
     */
    method RunEvents(fuel: nat) returns (outcome: RunOutcome, ghost handled: seq<Event>)
      requires Valid() && HasShutdown()
      modifies this`clock, this`totalComponentTime, this`fel, buffers, inspectors`isSteadyState
      modifies workstations, WorkstationGenerators()
      modifies iset c: Component | AnyComponent(c)
      ensures Valid() && old(clock) <= clock
      ensures |handled| <= fuel && (fuel > 0 ==> handled != [] && handled[0] == old(fel[0]))
      ensures Sorted(handled) && forall i :: 0 <= i < |handled| ==> handled[i].startTime <= clock
      ensures outcome != Failed(EmptyFutureEventList)
      ensures outcome == Completed ==> handled != [] && handled[|handled| - 1].eventType == SD && !HasSD(handled[..|handled| - 1])
      ensures outcome == OutOfFuel ==> HasShutdown() && |handled| == fuel && !HasSD(handled)
      ensures outcome.Failed? ==> handled != [] && handled[|handled| - 1].eventType in {WS, WD} && !HasSD(handled)
    {
      var n := 0;
      outcome := OutOfFuel;
      handled := [];
      while n < fuel && outcome == OutOfFuel
        invariant Valid() && old(clock) <= clock
        invariant |handled| == n <= fuel
        invariant handled == [] ==> fel == old(fel)
        invariant handled != [] ==> handled[0] == old(fel[0])
        invariant outcome != Failed(EmptyFutureEventList)
        invariant outcome == OutOfFuel ==> HasShutdown()
        invariant Logged(handled, outcome, clock)
        decreases fuel - n
      {
        ghost var t := clock;
        var r;
        ghost var event;
        ghost var scheduled;
        r, event, scheduled := RunOnce(false);
        if r.Err? {
          outcome := Failed(r.fault);
        } else if r.value {
          outcome := Completed;
        }
        LoggedStep(handled, t, event, outcome);
        handled := handled + [event];
        n := n + 1;
      }
    }

    /** run (Simulation.py:246-300) for at most fuel events: the loop, then grabXis once it completes. */
    method Run(fuel: nat) returns (outcome: RunOutcome, ghost handled: seq<Event>)
      requires Valid() && HasShutdown()
      modifies this, buffers, inspectors`isSteadyState, workstations, WorkstationGenerators()
      modifies iset c: Component | AnyComponent(c)
      ensures Valid() && old(clock) <= clock
      ensures |handled| <= fuel && (fuel > 0 ==> handled != [] && handled[0] == old(fel[0]))
      ensures Sorted(handled) && forall i :: 0 <= i < |handled| ==> handled[i].startTime <= clock
      ensures outcome != Failed(EmptyFutureEventList)
      ensures outcome == Completed ==>
        && Grabbed() && handled != [] && handled[|handled| - 1].eventType == SD
        && !HasSD(handled[..|handled| - 1])
      ensures outcome == OutOfFuel ==> HasShutdown() && |handled| == fuel && !HasSD(handled)
      ensures outcome.Failed? ==> handled != [] && handled[|handled| - 1].eventType in {WS, WD} && !HasSD(handled)
    {
      outcome, handled := RunEvents(fuel);
      if outcome == Completed {
        Finish();
      }
    }
  }

  /** Simulation.__init__ (Simulation.py:80-98). A seed key missing from seeds raises KeyError. */
  method NewSimulation(seeds: map<int, int>, behaviour: InspectorBehaviour, exponential: Transform) returns (s: Simulation)
    requires SeedKeys <= seeds.Keys
    requires SchedulesForward(behaviour)
    ensures fresh(s) && s.Valid() && s.HasShutdown() && s.fel == StartingEvents
    ensures s.clock == 0.0 && s.totalComponentTime == 0.0 && s.xis == map[]
    ensures s.behaviour == behaviour && s.exponential == exponential
    ensures LineInitial(s.buffers, s.inspectors, s.workstations, seeds)
  {
    var bs, ins, ws := CreateLine(seeds);
    s := new Simulation(bs, ins, ws, behaviour, exponential);
    s.AddStartingEvents();
    StartingEventsInOrder();
  }
}
