/**
 * Workstation.py: a workstation is idle or busy; it starts only when every assigned buffer
 * holds a component, takes one component from each at the start, and records its work only in
 * steady state.
 */
module Workstations {
  import opened Outcomes
  import opened Components
  import opened Events
  import opened Buffers
  import opened Rng

  class Workstation {
    const id: int
    var buffers: seq<Buffer?>
    var numProductsCreated: nat
    var isBusy: bool
    var minutesBusy: real
    const randomNumberGenerator: Generator
    var currComponents: seq<Component?>
    var componentsBuilt: seq<Component>
    var isSteadyState: bool

    ghost predicate Valid()
      reads this`buffers, this`currComponents
    {
      |currComponents| == |buffers|
    }

    /** Every slot holds a buffer and no buffer fills two slots (the handlers need this). */
    ghost predicate Wired()
      reads this`buffers
    {
      && (forall i :: 0 <= i < |buffers| ==> buffers[i] != null)
      && (forall i, j :: 0 <= i < j < |buffers| ==> buffers[i] != buffers[j])
    }

    ghost predicate BuffersValid()
      reads this`buffers, buffers`size, buffers`items
    {
      Wired() && forall i :: 0 <= i < |buffers| ==> buffers[i].Valid()
    }

    /** getNumComponents: one component per buffer slot. */
    function NumComponents(): nat
      reads this`buffers
    {
      |buffers|
    }

    /** Every assigned buffer holds at least one component. */
    ghost predicate Ready()
      requires Wired()
      reads this`buffers, buffers`size
    {
      forall i :: 0 <= i < |buffers| ==> !buffers[i].IsEmpty()
    }

    /** The reply of an idle workstation at time t: start now iff the buffers are ready. */
    ghost function StartIfReady(t: real): Option<Event>
      requires Wired()
      reads this`buffers, this`isBusy, buffers`size
    {
      if Ready() && !isBusy then Some(NewWorkstationEvent(t, t, WS, id)) else None
    }

    /** Workstation.py:13-30: numBuffers empty slots, nothing built, idle, not in steady state. */
    constructor (id: int, numBuffers: int, randomNumberGenerator: Generator)
      ensures Valid() && this.id == id && this.randomNumberGenerator == randomNumberGenerator
      ensures NumComponents() == Pos(numBuffers)
      ensures forall i :: 0 <= i < |buffers| ==> buffers[i] == null && currComponents[i] == null
      ensures numProductsCreated == 0 && minutesBusy == 0.0 && !isBusy && !isSteadyState
      ensures componentsBuilt == []
    {
      this.id := id;
      buffers := seq(Pos(numBuffers), _ => null);
      numProductsCreated := 0;
      isBusy := false;
      minutesBusy := 0.0;
      this.randomNumberGenerator := randomNumberGenerator;
      currComponents := seq(Pos(numBuffers), _ => null);
      componentsBuilt := [];
      isSteadyState := false;
    }

    /** Assigns a slot; an index outside the slot list raises IndexError (ok is false). */
    method SetBuffer(index: int, buffer: Buffer) returns (ok: bool)
      requires Valid()
      modifies this`buffers
      ensures Valid() && |buffers| == old(|buffers|)
      ensures ok <==> 0 <= index < |buffers|
      ensures ok ==> buffers == old(buffers)[index := buffer]
      ensures !ok ==> buffers == old(buffers)
    {
      if index > |buffers| || index < 0 {
        return false;
      }
      if index == |buffers| {
        // Python's list assignment itself raises IndexError here
        return false;
      }
      buffers := buffers[index := buffer];
      return true;
    }

    method SetSteadyState(steady: bool)
      modifies this`isSteadyState
      ensures isSteadyState == steady
    {
      isSteadyState := steady;
    }

    /** __buffersAreReady (Workstation.py:227-238): false at the first empty buffer. */
    method BuffersAreReady() returns (ready: bool)
      requires Wired()
      ensures ready == Ready()
    {
      var i := 0;
      while i < |buffers|
        invariant 0 <= i <= |buffers|
        invariant forall k :: 0 <= k < i ==> !buffers[k].IsEmpty()
      {
        if buffers[i].IsEmpty() {
          return false;
        }
        i := i + 1;
      }
      return true;
    }

    /** Workstation.py:120-141: asks to start now iff ready and idle; changes nothing. */
    method HandleInspectorDone(event: Event) returns (reply: Option<Event>)
      requires Wired()
      ensures reply == StartIfReady(event.startTime)
      ensures reply.Some? <==> Ready() && !isBusy
      ensures reply.Some? ==> reply.value.createdTime == reply.value.startTime == event.startTime
    {
      var currentTime := event.startTime;
      reply := None;
      var ready := BuffersAreReady();
      if ready && !isBusy {
        reply := Some(NewWorkstationEvent(currentTime, currentTime, WS, id));
      }
    }

    /** The contents of the buffers, slot by slot. */
    ghost function Items(): (items: seq<seq<Component>>)
      requires Wired()
      reads this`buffers, buffers
      ensures |items| == |buffers| && forall i :: 0 <= i < |buffers| ==> items[i] == buffers[i].items
    {
      var bs := buffers;
      seq(|bs|, i requires 0 <= i < |bs| && bs[i] != null reads bs => bs[i].items)
    }

    /**
     * Slots below k were drained into currComponents from the buffer contents items0; slots from
     * k on still hold comps0 and their buffers items0.
     */
    ghost predicate DrainedFrom(k: int, items0: seq<seq<Component>>, comps0: seq<Component?>)
      requires Valid() && BuffersValid()
      reads this, buffers
    {
      && 0 <= k <= |buffers| && |items0| == |buffers| && |comps0| == |buffers|
      && (forall i :: 0 <= i < k ==>
            && items0[i] != []
            && currComponents[i] == items0[i][0]
            && buffers[i].items == items0[i][1..])
      && (forall i :: k <= i < |buffers| ==>
            && currComponents[i] == comps0[i]
            && buffers[i].items == items0[i])
    }

    /** Slots below k were drained into currComponents; slots from k on are untouched. */
    twostate predicate DrainedBelow(k: int)
      requires old(Valid()) && old(BuffersValid()) && Valid() && BuffersValid()
      requires buffers == old(buffers)
      reads this, buffers
    {
      DrainedFrom(k, old(Items()), old(currComponents))
    }

    /** No component appears from nowhere: buffers only lose components, and a slot keeps its component or takes one from its own buffer. */
    twostate predicate Conserved()
      requires old(Valid()) && old(BuffersValid()) && Valid() && BuffersValid()
      requires buffers == old(buffers)
      reads this, buffers
    {
      && (forall s, c :: 0 <= s < |buffers| && c in buffers[s].items ==> c in old(buffers[s].items))
      && (forall s :: 0 <= s < |currComponents| && currComponents[s] != null ==>
            currComponents[s] == old(currComponents[s]) || currComponents[s] in old(buffers[s].items))
    }

    twostate lemma DrainedConserves(k: int)
      requires old(Valid()) && old(BuffersValid()) && Valid() && BuffersValid()
      requires buffers == old(buffers)
      requires DrainedBelow(k)
      ensures Conserved()
    {
      forall s, c | 0 <= s < k && c in buffers[s].items ensures c in old(buffers[s].items) {
        assert c in old(buffers[s].items[1..]);
      }
    }

    /**
     * What a start leaves in the slots and buffers, from the buffer contents items0 and the slots
     * comps0: every buffer drained into its slot when all were ready, otherwise those below the
     * first empty one.
     */
    ghost predicate TookFrom(ready0: bool, items0: seq<seq<Component>>, comps0: seq<Component?>)
      requires Valid() && BuffersValid()
      reads this, buffers
    {
      && (ready0 ==> DrainedFrom(|buffers|, items0, comps0))
      && (!ready0 ==> exists k :: 0 <= k < |items0| && items0[k] == [] && DrainedFrom(k, items0, comps0))
    }

    /** The same, from the buffers and slots as they were before the start. */
    twostate predicate TookComponents()
      requires old(Valid()) && old(BuffersValid()) && Valid() && BuffersValid()
      requires buffers == old(buffers)
      reads this, buffers
    {
      TookFrom(old(Ready()), old(Items()), old(currComponents))
    }

    /** The drain loop of Workstation.py:167-171: one component from each buffer, in slot order. */
    method TakeComponents() returns (ok: bool)
      requires Valid() && BuffersValid()
      modifies this`currComponents, buffers`size, buffers`items
      ensures Valid() && BuffersValid() && buffers == old(buffers)
      ensures ok <==> old(Ready())
      ensures ok ==> DrainedBelow(|buffers|)
      ensures !ok ==> exists k :: 0 <= k < |buffers| && old(buffers[k].IsEmpty()) && DrainedBelow(k)
      ensures Conserved()
    {
      var i := 0;
      while i < |buffers|
        invariant 0 <= i <= |buffers|
        invariant Valid() && BuffersValid() && buffers == old(buffers)
        invariant DrainedBelow(i)
      {
        if buffers[i].IsEmpty() {
          DrainedConserves(i);
          return false;
        }
        var removed := buffers[i].RemoveComponent();
        currComponents := currComponents[i := removed.value];
        i := i + 1;
      }
      DrainedConserves(i);
      return true;
    }

    /** A start or done event names this workstation. */
    predicate AddressedBy(event: Event)
    {
      event.WorkstationEvent? && event.workstationId == id
    }

    /** What a start event may change: this workstation, its generator and its buffers, or nothing. */
    ghost function Mine(event: Event): set<Workstation>
    {
      if AddressedBy(event) then {this} else {}
    }

    ghost function MyGenerator(event: Event): set<Generator>
    {
      if AddressedBy(event) then {randomNumberGenerator} else {}
    }

    ghost function MyBuffers(event: Event): seq<Buffer?>
      reads this`buffers
    {
      if AddressedBy(event) then buffers else []
    }

    /**
     * Workstation.py:143-174. Addressed to this workstation: becomes busy, advances the generator
     * once, takes the front component of every buffer in slot order and schedules its own done
     * event one service time later. An empty buffer raises after the earlier slots were drained.
     */
    method HandleWorkstationStarted(event: Event, exponential: Transform) returns (r: Result<Option<Event>>)
      requires Valid() && BuffersValid()
      modifies Mine(event)`isBusy, Mine(event)`currComponents, MyGenerator(event)
      modifies MyBuffers(event)`size, MyBuffers(event)`items
      ensures Valid() && BuffersValid() && buffers == old(buffers) && Conserved()
      // a plain or inspector event has no workstation id
      ensures !event.WorkstationEvent? ==> r == Err(MissingAttribute)
      ensures event.WorkstationEvent? && event.workstationId != id ==> r == Ok(None)
      ensures !(event.WorkstationEvent? && event.workstationId == id) ==>
        unchanged(this) && unchanged(randomNumberGenerator) && unchanged(buffers)
      ensures event.WorkstationEvent? && event.workstationId == id ==>
        && isBusy
        && randomNumberGenerator.xi == Step(old(randomNumberGenerator.xi))
        && randomNumberGenerator.ri == randomNumberGenerator.xi as real / M as real
        && (old(Ready()) ==>
              && r == Ok(Some(NewWorkstationEvent(event.startTime,
                                 event.startTime + exponential(randomNumberGenerator.ri, randomNumberGenerator.lmbda),
                                 WD, id)))
              && DrainedBelow(|buffers|))
        && (!old(Ready()) ==>
              && r == Err(EmptyBufferAtStart)
              && exists k :: 0 <= k < |buffers| && old(buffers[k].IsEmpty()) && DrainedBelow(k))
    {
      if !event.WorkstationEvent? {
        return Err(MissingAttribute);
      }
      if event.workstationId != id {
        return Ok(None);
      }
      assert Mine(event) == {this} && MyGenerator(event) == {randomNumberGenerator} && MyBuffers(event) == buffers;
      r := Start(event, exponential);
    }

    /** Workstation.py:157-174, for an event addressed here: busy, a service time drawn, the buffers drained. */
    method Start(event: Event, exponential: Transform) returns (r: Result<Option<Event>>)
      requires Valid() && BuffersValid()
      modifies this`isBusy, this`currComponents, randomNumberGenerator, buffers`size, buffers`items
      ensures Valid() && BuffersValid() && buffers == old(buffers) && Conserved()
      ensures isBusy
      ensures randomNumberGenerator.xi == Step(old(randomNumberGenerator.xi))
      ensures randomNumberGenerator.ri == randomNumberGenerator.xi as real / M as real
      ensures old(Ready()) ==>
        && r == Ok(Some(NewWorkstationEvent(event.startTime,
                           event.startTime + exponential(randomNumberGenerator.ri, randomNumberGenerator.lmbda),
                           WD, id)))
        && DrainedBelow(|buffers|)
      ensures !old(Ready()) ==>
        && r == Err(EmptyBufferAtStart)
        && exists k :: 0 <= k < |buffers| && old(buffers[k].IsEmpty()) && DrainedBelow(k)
    {
      isBusy := true;
      var randomServiceTime := randomNumberGenerator.GenerateRandomServiceTime(exponential);
      var currentTime := event.startTime;
      var ok := TakeComponents();
      if !ok {
        return Err(EmptyBufferAtStart);
      }
      return Ok(Some(NewWorkstationEvent(currentTime, currentTime + randomServiceTime, WD, id)));
    }

    /** The components a done event may stamp: the held ones, if the event is addressed here. */
    ghost function MyComponents(event: Event): seq<Component?>
      reads this`currComponents
    {
      if AddressedBy(event) then currComponents else []
    }

    /** Every slot holds a component (true once a start has drained the buffers). */
    ghost predicate Holding()
      reads this`currComponents
    {
      forall i :: 0 <= i < |currComponents| ==> currComponents[i] != null
    }

    /** Components below k were stamped with t and appended, in slot order, to the log built0. */
    ghost predicate StampedOnto(k: int, t: real, built0: seq<Component>)
      reads this, currComponents
    {
      && 0 <= k <= |currComponents|
      && |componentsBuilt| == |built0| + k
      && componentsBuilt[..|built0|] == built0
      && (forall i :: 0 <= i < k ==>
            && currComponents[i] != null
            && componentsBuilt[|built0| + i] == currComponents[i]
            && currComponents[i].departureTime == Some(t))
    }

    /** Components below k were stamped with t and appended, in slot order, to componentsBuilt. */
    twostate predicate StampedBelow(k: int, t: real)
      reads this, currComponents
    {
      StampedOnto(k, t, old(componentsBuilt))
    }

    /**
     * What a done event at t leaves in the counters and the components, from products0 products,
     * minutes0 minutes busy and the log built0: in steady state one more product and, once every
     * held component is stamped, the busy time since the start event; the held components stamped
     * with t and logged in slot order, up to the first unset slot.
     */
    ghost predicate DoneFrom(event: Event, products0: int, minutes0: real, built0: seq<Component>)
      reads this, currComponents
    {
      && numProductsCreated == products0 + (if isSteadyState then 1 else 0)
      && (Holding() ==>
            && StampedOnto(|currComponents|, event.startTime, built0)
            && minutesBusy == minutes0 + (if isSteadyState then event.startTime - event.createdTime else 0.0))
      && (!Holding() ==>
            && minutesBusy == minutes0
            && exists k :: 0 <= k < |currComponents| && currComponents[k] == null && StampedOnto(k, event.startTime, built0))
    }

    /** The same, from the counters and log as they were before the done event. */
    twostate predicate DoneWith(event: Event)
      reads this, currComponents
    {
      DoneFrom(event, old(numProductsCreated), old(minutesBusy), old(componentsBuilt))
    }

    /** The stamping loop of Workstation.py:197-199; a None slot raises AttributeError. */
    method StampComponents(t: real) returns (ok: bool)
      modifies this`componentsBuilt, currComponents
      ensures ok <==> Holding()
      ensures ok ==> StampedBelow(|currComponents|, t)
      ensures !ok ==> exists k :: 0 <= k < |currComponents| && currComponents[k] == null && StampedBelow(k, t)
    {
      var i := 0;
      while i < |currComponents|
        invariant 0 <= i <= |currComponents|
        invariant StampedBelow(i, t)
      {
        var component := currComponents[i];
        if component == null {
          return false;
        }
        component.SetDepartureTime(t);
        componentsBuilt := componentsBuilt + [component];
        i := i + 1;
      }
      return true;
    }

    /**
     * Workstation.py:176-215. Addressed to this workstation: becomes idle; in steady state counts
     * the product and the busy time since the start event; stamps and logs the held components;
     * asks to start again at once iff the buffers are ready.
     */
    method HandleWorkstationDone(event: Event) returns (r: Result<Option<Event>>)
      requires Wired()
      modifies Mine(event)`isBusy, Mine(event)`numProductsCreated, Mine(event)`minutesBusy
      modifies Mine(event)`componentsBuilt, MyComponents(event)
      ensures !event.WorkstationEvent? ==> r == Err(MissingAttribute)
      ensures event.WorkstationEvent? && event.workstationId != id ==> r == Ok(None)
      ensures event.WorkstationEvent? && event.workstationId == id ==>
        && !isBusy
        && numProductsCreated == old(numProductsCreated) + (if isSteadyState then 1 else 0)
        && (Holding() ==>
              && StampedBelow(|currComponents|, event.startTime)
              && minutesBusy == old(minutesBusy)
                   + (if isSteadyState then event.startTime - event.createdTime else 0.0)
              && r == Ok(StartIfReady(event.startTime))
              && (r.value.Some? <==> Ready()))
        && (!Holding() ==>
              && minutesBusy == old(minutesBusy)
              && r == Err(UnsetComponentSlot)
              && exists k :: 0 <= k < |currComponents| && currComponents[k] == null && StampedBelow(k, event.startTime))
    {
      if !event.WorkstationEvent? {
        return Err(MissingAttribute);
      }
      if event.workstationId != id {
        return Ok(None);
      }
      assert Mine(event) == {this} && MyComponents(event) == currComponents;
      isBusy := false;
      if isSteadyState {
        numProductsCreated := numProductsCreated + 1;
      }
      var currentTime := event.startTime;
      var ok := StampComponents(currentTime);
      if !ok {
        return Err(UnsetComponentSlot);
      }
      var productionTime := currentTime - event.createdTime;
      if isSteadyState {
        minutesBusy := minutesBusy + productionTime;
      }
      var startEvent := None;
      var ready := BuffersAreReady();
      if ready && !isBusy {
        startEvent := Some(NewWorkstationEvent(currentTime, currentTime, WS, id));
      }
      return Ok(startEvent);
    }
  }
}
