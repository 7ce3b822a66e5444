/** Replication.py and Batch.py: per-replication and per-batch statistics records. */
module Records {
  import opened Dicts

  class Replication {
    var throughput: real
    var probabilityWorkstationBusy: Dict
    var probabilityInspectorBlocked: Dict
    var avgBufferOccup: Dict

    ghost predicate Valid()
      reads this
    {
      Dicts.Valid(probabilityWorkstationBusy) && Dicts.Valid(probabilityInspectorBlocked) && Dicts.Valid(avgBufferOccup)
    }

    constructor ()
      ensures Valid() && throughput == 0.0
      ensures probabilityWorkstationBusy == Empty && probabilityInspectorBlocked == Empty && avgBufferOccup == Empty
    {
      throughput := 0.0;
      probabilityWorkstationBusy := Empty;
      probabilityInspectorBlocked := Empty;
      avgBufferOccup := Empty;
    }

    method SetThroughput(throughput: real)
      modifies this`throughput
      ensures this.throughput == throughput
    {
      this.throughput := throughput;
    }

    method AddWorkstationBusyProbability(workstationId: int, probability: real)
      requires Valid()
      modifies this`probabilityWorkstationBusy
      ensures Valid()
      ensures probabilityWorkstationBusy == Put(old(probabilityWorkstationBusy), workstationId, probability)
    {
      probabilityWorkstationBusy := Put(probabilityWorkstationBusy, workstationId, probability);
    }

    method AddInspectorBlockedProbability(inspectorId: int, probability: real)
      requires Valid()
      modifies this`probabilityInspectorBlocked
      ensures Valid()
      ensures probabilityInspectorBlocked == Put(old(probabilityInspectorBlocked), inspectorId, probability)
    {
      probabilityInspectorBlocked := Put(probabilityInspectorBlocked, inspectorId, probability);
    }

    method AddAvgBufferOccupancy(bufferId: int, occupancy: real)
      requires Valid()
      modifies this`avgBufferOccup
      ensures Valid()
      ensures avgBufferOccup == Put(old(avgBufferOccup), bufferId, occupancy)
    {
      avgBufferOccup := Put(avgBufferOccup, bufferId, occupancy);
    }

    /** Replication.py:98-109: throughput, then busy, blocked and occupancy values in key order. */
    method GetReplicationData() returns (data: seq<real>)
      requires Valid()
      ensures data == Flatten(throughput, probabilityWorkstationBusy, probabilityInspectorBlocked, avgBufferOccup)
    {
      data := [throughput];
      data := AppendValues(data, probabilityWorkstationBusy);
      data := AppendValues(data, probabilityInspectorBlocked);
      data := AppendValues(data, avgBufferOccup);
    }
  }

  class Batch {
    var throughput: real
    var probabilityWorkstationBusy: Dict
    var probabilityInspectorBlocked: Dict
    var avgBufferOccup: Dict

    ghost predicate Valid()
      reads this
    {
      Dicts.Valid(probabilityWorkstationBusy) && Dicts.Valid(probabilityInspectorBlocked) && Dicts.Valid(avgBufferOccup)
    }

    constructor ()
      ensures Valid() && throughput == 0.0
      ensures probabilityWorkstationBusy == Empty && probabilityInspectorBlocked == Empty && avgBufferOccup == Empty
    {
      throughput := 0.0;
      probabilityWorkstationBusy := Empty;
      probabilityInspectorBlocked := Empty;
      avgBufferOccup := Empty;
    }

    method SetThroughput(throughput: real)
      modifies this`throughput
      ensures this.throughput == throughput
    {
      this.throughput := throughput;
    }

    method AddWorkstationBusyProbability(workstationId: int, probability: real)
      requires Valid()
      modifies this`probabilityWorkstationBusy
      ensures Valid()
      ensures probabilityWorkstationBusy == Put(old(probabilityWorkstationBusy), workstationId, probability)
    {
      probabilityWorkstationBusy := Put(probabilityWorkstationBusy, workstationId, probability);
    }

    method AddInspectorBlockedProbability(inspectorId: int, probability: real)
      requires Valid()
      modifies this`probabilityInspectorBlocked
      ensures Valid()
      ensures probabilityInspectorBlocked == Put(old(probabilityInspectorBlocked), inspectorId, probability)
    {
      probabilityInspectorBlocked := Put(probabilityInspectorBlocked, inspectorId, probability);
    }

    method AddAvgBufferOccupancy(bufferId: int, occupancy: real)
      requires Valid()
      modifies this`avgBufferOccup
      ensures Valid()
      ensures avgBufferOccup == Put(old(avgBufferOccup), bufferId, occupancy)
    {
      avgBufferOccup := Put(avgBufferOccup, bufferId, occupancy);
    }

    /** Batch.py:39-51: the same row layout as a replication record. */
    method GetCsvFormattedStats() returns (row: seq<real>)
      requires Valid()
      ensures row == Flatten(throughput, probabilityWorkstationBusy, probabilityInspectorBlocked, avgBufferOccup)
    {
      row := [throughput];
      row := AppendValues(row, probabilityWorkstationBusy);
      row := AppendValues(row, probabilityInspectorBlocked);
      row := AppendValues(row, avgBufferOccup);
    }
  }
}
