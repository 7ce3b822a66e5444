/**
 * Buffer.py: a bounded buffer between the inspectors and the workstations. The source keeps
 * only the counter `size`; the model also keeps the components themselves, front first, so
 * that `|items| == size` and the workstation's use of removeComponent's result as a component
 * (Workstation.py:171,197-199) has something to receive.
 */
module Buffers {
  import opened Outcomes
  import opened Components

  class Buffer {
    const id: int
    const maxSize: nat
    const componentType: ComponentType
    var size: int
    var items: seq<Component>
    // Occupancy statistics used by Simulation.py:212,227,343,414; not part of Buffer.py.
    var isSteadyState: bool
    var cumulativeOcc: real

    ghost predicate Valid()
      reads this`size, this`items
    {
      0 <= size <= maxSize && |items| == size
    }

    predicate IsFull()
      reads this`size
    {
      size == maxSize
    }

    predicate IsEmpty()
      reads this`size
    {
      size == 0
    }

    constructor (id: int, maxSize: nat, componentType: ComponentType)
      ensures Valid()
      ensures this.id == id && this.maxSize == maxSize && this.componentType == componentType
      ensures size == 0 && items == [] && IsEmpty()
      ensures !isSteadyState && cumulativeOcc == 0.0
    {
      this.id := id;
      this.maxSize := maxSize;
      this.componentType := componentType;
      size := 0;
      items := [];
      isSteadyState := false;
      cumulativeOcc := 0.0;
    }

    /** Accepts c iff the buffer is not full. */
    method AddComponent(c: Component) returns (ok: bool)
      requires Valid()
      modifies this`size, this`items
      ensures Valid()
      ensures ok <==> !old(IsFull())
      ensures ok ==> size == old(size) + 1 && items == old(items) + [c]
      ensures !ok ==> size == old(size) && items == old(items)
    {
      if size < maxSize {
        size := size + 1;
        items := items + [c];
        return true;
      }
      return false;
    }

    /** Hands out the front component iff the buffer is not empty. */
    method RemoveComponent() returns (removed: Option<Component>)
      requires Valid()
      modifies this`size, this`items
      ensures Valid()
      ensures removed.Some? <==> !old(IsEmpty())
      ensures removed.Some? ==> removed.value == old(items[0]) && size == old(size) - 1 && items == old(items[1..])
      ensures removed.None? ==> size == old(size) && items == old(items)
    {
      if size > 0 {
        removed := Some(items[0]);
        size := size - 1;
        items := items[1..];
        return;
      }
      return None;
    }

    method SetSteadyState(steady: bool)
      modifies this`isSteadyState
      ensures isSteadyState == steady
    {
      isSteadyState := steady;
    }

    /** The occupancy this buffer adds over elapsed minutes: size x elapsed, counted only in steady state. */
    function OccupancyGain(elapsed: real): real
      reads this`size, this`isSteadyState
    {
      if isSteadyState then size as real * elapsed else 0.0
    }

    /** Adds the occupancy gained over elapsed to the occupancy integral. */
    method AccumulateOcc(elapsed: real)
      modifies this`cumulativeOcc
      ensures cumulativeOcc == old(cumulativeOcc) + OccupancyGain(elapsed)
    {
      if isSteadyState {
        cumulativeOcc := cumulativeOcc + size as real * elapsed;
      }
    }
  }

  /** On a buffer that is not full, adding and then removing restores the size and drops the front. */
  method AddThenRemove(b: Buffer, c: Component) returns (removed: Option<Component>)
    requires b.Valid() && !b.IsFull()
    modifies b
    ensures b.Valid() && b.size == old(b.size) && removed.Some?
    ensures b.items == (old(b.items) + [c])[1..]
  {
    var ok := b.AddComponent(c);
    removed := b.RemoveComponent();
  }
}
