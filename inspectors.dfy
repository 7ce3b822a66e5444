/**
 * Inspector.py: the slot table of an inspector. Simulation.py:39,46 constructs inspectors with an
 * id, component types and generators, and reads back a steady-state flag and a blocked-time total;
 * those fields are added here. The inspectors' event handlers are not part of Inspector.py and are
 * modelled in the Simulation module as an abstract behaviour.
 */
module Inspectors {
  import opened Components
  import opened Buffers
  import opened Rng

  /** Whether setBuffer accepts a slot index: every index of the list (the evident intent). */
  predicate AcceptsIndex(index: int, numBuffers: int)
  {
    0 <= index < numBuffers
  }

  /** Inspector.py:15 as written: `index > 0` also rejects the first slot. */
  predicate AcceptsIndexAsWritten(index: int, numBuffers: int)
  {
    0 < index < numBuffers
  }

  /** Simulation.py:40,47 assign slot 0, which the test as written refuses. */
  lemma FirstSlotRejectedAsWritten(numBuffers: int)
    requires 0 < numBuffers
    ensures AcceptsIndex(0, numBuffers) && !AcceptsIndexAsWritten(0, numBuffers)
    ensures forall i :: 0 < i ==> (AcceptsIndex(i, numBuffers) <==> AcceptsIndexAsWritten(i, numBuffers))
  {
  }

  class Inspector {
    const id: int
    const numBuffers: int
    var buffers: seq<Buffer?>
    var timeRemaining: int
    var currentComponentType: int
    const types: seq<ComponentType>
    const generators: seq<Generator>
    var isSteadyState: bool
    var timeBlocked: real

    ghost predicate Valid()
      reads this
    {
      |buffers| == Pos(numBuffers)
    }

    /** Inspector.py:5-9: numBuffers empty slots (Python's `[None] * n` is empty for n < 0). */
    constructor (numBuffers: int)
      ensures Valid() && this.numBuffers == numBuffers
      ensures forall i :: 0 <= i < |buffers| ==> buffers[i] == null
      ensures timeRemaining == 0 && currentComponentType == 0
      ensures id == 0 && types == [] && generators == [] && !isSteadyState && timeBlocked == 0.0
    {
      this.numBuffers := numBuffers;
      buffers := seq(Pos(numBuffers), _ => null);
      timeRemaining := 0;
      currentComponentType := 0;
      id := 0;
      types := [];
      generators := [];
      isSteadyState := false;
      timeBlocked := 0.0;
    }

    /** The four-argument construction of Simulation.py:39,46. */
    constructor Create(id: int, numBuffers: int, types: seq<ComponentType>, generators: seq<Generator>)
      ensures Valid() && this.id == id && this.numBuffers == numBuffers
      ensures this.types == types && this.generators == generators
      ensures forall i :: 0 <= i < |buffers| ==> buffers[i] == null
      ensures timeRemaining == 0 && currentComponentType == 0 && !isSteadyState && timeBlocked == 0.0
    {
      this.id := id;
      this.numBuffers := numBuffers;
      this.types := types;
      this.generators := generators;
      buffers := seq(Pos(numBuffers), _ => null);
      timeRemaining := 0;
      currentComponentType := 0;
      isSteadyState := false;
      timeBlocked := 0.0;
    }

    /** Assigns slot index iff it is an index of the slot list; otherwise nothing changes. */
    method SetBuffer(index: int, buffer: Buffer) returns (ok: bool)
      requires Valid()
      modifies this`buffers
      ensures Valid()
      ensures ok <==> AcceptsIndex(index, numBuffers)
      ensures ok ==> buffers == old(buffers)[index := buffer]
      ensures !ok ==> buffers == old(buffers)
    {
      if index < numBuffers && index >= 0 {
        buffers := buffers[index := buffer];
        return true;
      }
      return false;
    }

    /** Inspector.py:14-18 as written: the same, but index 0 is refused. */
    method SetBufferAsWritten(index: int, buffer: Buffer) returns (ok: bool)
      requires Valid()
      modifies this`buffers
      ensures Valid()
      ensures ok <==> AcceptsIndexAsWritten(index, numBuffers)
      ensures ok ==> buffers == old(buffers)[index := buffer]
      ensures !ok ==> buffers == old(buffers)
    {
      if index < numBuffers && index > 0 {
        buffers := buffers[index := buffer];
        return true;
      }
      return false;
    }

    method SetTimeRemaining(timeRemaining: int)
      modifies this`timeRemaining
      ensures this.timeRemaining == timeRemaining
    {
      this.timeRemaining := timeRemaining;
    }

    method SetCurrentComponentType(componentType: int)
      modifies this`currentComponentType
      ensures currentComponentType == componentType
    {
      currentComponentType := componentType;
    }

    method SetSteadyState(steady: bool)
      modifies this`isSteadyState
      ensures isSteadyState == steady
    {
      isSteadyState := steady;
    }
  }
}
