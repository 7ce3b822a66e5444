/**
 * The line Simulation.py builds (Simulation.py:15-78): five bounded buffers, two inspectors
 * wired to them and three workstations drawing from them, each with its own seeded generator.
 */
module Line {
  import opened Components
  import opened Buffers
  import opened Rng
  import opened Inspectors
  import opened Workstations

  /** The capacity createBuffers gives every buffer. */
  const MaxBufferSize: nat := 2

  /** The seed map keys read at construction (Simulation.py:38,44-45,61-63). */
  const SeedKeys: set<int> := {0, 100000, 200000, 300000, 400000, 500000}

  /**
   * The streams the driver partitions (block size 100000, six blocks) start exactly at the keys
   * the line reads its seeds from, so a fresh stream map seeds every generator.
   */
  lemma StreamKeysAreSeedKeys()
    ensures {0} + (set i | 0 <= i < 6 :: BlockStart(i, 100000)) == SeedKeys
  {
    var starts := set i | 0 <= i < 6 :: BlockStart(i, 100000);
    assert BlockStart(0, 100000) in starts && BlockStart(1, 100000) in starts;
    assert BlockStart(2, 100000) in starts && BlockStart(3, 100000) in starts;
    assert BlockStart(4, 100000) in starts && BlockStart(5, 100000) in starts;
    forall x | x in starts ensures x in SeedKeys {
      var i :| 0 <= i < 6 && x == BlockStart(i, 100000);
      assert i == 0 || i == 1 || i == 2 || i == 3 || i == 4 || i == 5;
    }
  }

  /** The buffers of createBuffers: ids 1-5, bound MaxBufferSize, three of type C1, then C2 and C3. */
  ghost predicate BuffersLaidOut(bs: seq<Buffer>)
  {
    && |bs| == 5
    && bs[0].id == 1 && bs[1].id == 2 && bs[2].id == 3 && bs[3].id == 4 && bs[4].id == 5
    && bs[0].maxSize == MaxBufferSize && bs[1].maxSize == MaxBufferSize && bs[2].maxSize == MaxBufferSize
    && bs[3].maxSize == MaxBufferSize && bs[4].maxSize == MaxBufferSize
    && bs[0].componentType == C1 && bs[1].componentType == C1 && bs[2].componentType == C1
    && bs[3].componentType == C2 && bs[4].componentType == C3
  }

  /** Inspector 1 draws one component type from one generator, inspector 2 two from two. */
  ghost predicate InspectorsLaidOut(ins: seq<Inspector>)
  {
    && |ins| == 2
    && ins[0].id == 1 && ins[0].numBuffers == 3 && ins[0].types == [C1] && |ins[0].generators| == 1
    && ins[1].id == 2 && ins[1].numBuffers == 2 && ins[1].types == [C2, C3] && |ins[1].generators| == 2
  }

  /** Workstation k (0-based) has id k + 1. */
  ghost predicate WorkstationsLaidOut(ws: seq<Workstation>)
  {
    |ws| == 3 && ws[0].id == 1 && ws[1].id == 2 && ws[2].id == 3
  }

  /** The slots createInspectors assigns: inspector 1 feeds buffers 1-3, inspector 2 buffers 4 and 5. */
  ghost predicate InspectorSlotsOf(bs: seq<Buffer>, ins: seq<Inspector>)
    reads ins`buffers
  {
    && |bs| == 5 && |ins| == 2
    && ins[0].buffers == [bs[0], bs[1], bs[2]]
    && ins[1].buffers == [bs[3], bs[4]]
  }

  /** The slots createWorkstations assigns; every slot is set and no buffer fills two. */
  ghost predicate WorkstationSlotsOf(bs: seq<Buffer>, ws: seq<Workstation>)
    reads ws`buffers
  {
    && |bs| == 5 && |ws| == 3
    && ws[0].buffers == [bs[0]]
    && ws[1].buffers == [bs[1], bs[3]]
    && ws[2].buffers == [bs[2], bs[4]]
    && ws[0].Wired() && ws[1].Wired() && ws[2].Wired()
  }

  /** Each workstation has one component slot per buffer slot. */
  ghost predicate ShapesOf(ws: seq<Workstation>)
    reads ws`buffers, ws`currComponents
  {
    |ws| == 3 && ws[0].Valid() && ws[1].Valid() && ws[2].Valid()
  }

  /** Every buffer keeps its bound. */
  ghost predicate AllBounded(bs: seq<Buffer>)
    reads bs`size, bs`items
  {
    |bs| == 5 && bs[0].Valid() && bs[1].Valid() && bs[2].Valid() && bs[3].Valid() && bs[4].Valid()
  }

  /** Every buffer is empty and outside steady state, with no occupancy recorded. */
  ghost predicate AllFresh(bs: seq<Buffer>)
    reads bs`size, bs`isSteadyState, bs`cumulativeOcc
  {
    forall i :: 0 <= i < |bs| ==> bs[i].IsEmpty() && !bs[i].isSteadyState && bs[i].cumulativeOcc == 0.0
  }

  /** createBuffers (Simulation.py:15-26). */
  method CreateBuffers() returns (bs: seq<Buffer>)
    ensures fresh(bs) && BuffersLaidOut(bs) && AllBounded(bs) && AllFresh(bs)
  {
    var buf1 := new Buffer(1, MaxBufferSize, C1);
    var buf2 := new Buffer(2, MaxBufferSize, C1);
    var buf3 := new Buffer(3, MaxBufferSize, C1);
    var buf4 := new Buffer(4, MaxBufferSize, C2);
    var buf5 := new Buffer(5, MaxBufferSize, C3);
    bs := [buf1, buf2, buf3, buf4, buf5];
  }

  /** createInspectors (Simulation.py:29-49), wired through the slot assignment that accepts slot 0. */
  method CreateInspectors(bs: seq<Buffer>, seeds: map<int, int>) returns (ins: seq<Inspector>)
    requires |bs| == 5 && SeedKeys <= seeds.Keys
    ensures fresh(ins) && InspectorsLaidOut(ins) && InspectorSlotsOf(bs, ins)
    ensures fresh(ins[0].generators) && fresh(ins[1].generators)
    ensures ins[0].generators[0].xi == seeds[0] && ins[0].generators[0].lmbda == 0.096545
    ensures ins[1].generators[0].xi == seeds[100000] && ins[1].generators[0].lmbda == 0.064363
    ensures ins[1].generators[1].xi == seeds[200000] && ins[1].generators[1].lmbda == 0.048467
    ensures forall k :: 0 <= k < 2 ==> !ins[k].isSteadyState && ins[k].timeBlocked == 0.0
  {
    var gen1 := new Generator(seeds[0], 0.096545);
    var ins1 := new Inspector.Create(1, 3, [C1], [gen1]);
    var ok := ins1.SetBuffer(0, bs[0]);
    ok := ins1.SetBuffer(1, bs[1]);
    ok := ins1.SetBuffer(2, bs[2]);

    var gen2 := new Generator(seeds[100000], 0.064363);
    var gen3 := new Generator(seeds[200000], 0.048467);
    var ins2 := new Inspector.Create(2, 2, [C2, C3], [gen2, gen3]);
    ok := ins2.SetBuffer(0, bs[3]);
    ok := ins2.SetBuffer(1, bs[4]);
    ins := [ins1, ins2];
  }

  /** A workstation as createWorkstations leaves it: every slot set, idle, nothing built or held. */
  ghost predicate Unstarted(w: Workstation, id: int)
    reads w
  {
    && w.id == id && w.Valid() && w.Wired()
    && w.numProductsCreated == 0 && w.minutesBusy == 0.0 && !w.isBusy && !w.isSteadyState
    && w.componentsBuilt == []
    && forall i :: 0 <= i < |w.currComponents| ==> w.currComponents[i] == null
  }

  /** The constructor call for work1 and its one setBuffer (Simulation.py:65,69). */
  method NewWorkstation1(id: int, g: Generator, b0: Buffer) returns (w: Workstation)
    ensures fresh(w) && Unstarted(w, id) && w.buffers == [b0] && w.randomNumberGenerator == g
  {
    w := new Workstation(id, 1, g);
    var ok := w.SetBuffer(0, b0);
    assert w.buffers == [b0];
  }

  /** The constructor call for work2 or work3 and its two setBuffer calls (Simulation.py:66-67,70-74). */
  method NewWorkstation2(id: int, g: Generator, b0: Buffer, b1: Buffer) returns (w: Workstation)
    requires b0 != b1
    ensures fresh(w) && Unstarted(w, id) && w.buffers == [b0, b1] && w.randomNumberGenerator == g
  {
    w := new Workstation(id, 2, g);
    var ok := w.SetBuffer(0, b0);
    ok := w.SetBuffer(1, b1);
    assert w.buffers == [b0, b1];
  }

  /** Workstation k (0-based) is as createWorkstations leaves work k + 1. */
  ghost predicate AllUnstarted(ws: seq<Workstation>)
    reads ws
  {
    |ws| == 3 && forall k :: 0 <= k < 3 ==> Unstarted(ws[k], k + 1)
  }

  /** createWorkstations (Simulation.py:52-75). */
  method CreateWorkstations(bs: seq<Buffer>, seeds: map<int, int>) returns (ws: seq<Workstation>)
    requires |bs| == 5 && SeedKeys <= seeds.Keys
    requires forall i :: 0 <= i < 5 ==> bs[i].id == i + 1
    ensures fresh(ws) && WorkstationsLaidOut(ws) && WorkstationSlotsOf(bs, ws) && ShapesOf(ws)
    ensures Unstarted(ws[0], 1) && Unstarted(ws[1], 2) && Unstarted(ws[2], 3)
    ensures ws[0].randomNumberGenerator.xi == seeds[300000] && ws[0].randomNumberGenerator.lmbda == 0.217183
    ensures ws[1].randomNumberGenerator.xi == seeds[400000] && ws[1].randomNumberGenerator.lmbda == 0.090150
    ensures ws[2].randomNumberGenerator.xi == seeds[500000] && ws[2].randomNumberGenerator.lmbda == 0.113688
  {
    var gen1 := new Generator(seeds[300000], 0.217183);
    var gen2 := new Generator(seeds[400000], 0.090150);
    var gen3 := new Generator(seeds[500000], 0.113688);
    var work1 := NewWorkstation1(1, gen1, bs[0]);
    var work2 := NewWorkstation2(2, gen2, bs[1], bs[3]);
    var work3 := NewWorkstation2(3, gen3, bs[2], bs[4]);
    ws := [work1, work2, work3];
  }

  /** The line as the three create functions wire it. */
  ghost predicate LineReady(bs: seq<Buffer>, ins: seq<Inspector>, ws: seq<Workstation>)
    reads ins`buffers, ws`buffers, ws`currComponents, bs`size, bs`items
  {
    && BuffersLaidOut(bs) && InspectorsLaidOut(ins) && WorkstationsLaidOut(ws)
    && InspectorSlotsOf(bs, ins) && WorkstationSlotsOf(bs, ws) && ShapesOf(ws) && AllBounded(bs)
  }

  /** The state the three create functions leave: empty buffers, unstarted workstations, seeded generators. */
  ghost predicate LineInitial(bs: seq<Buffer>, ins: seq<Inspector>, ws: seq<Workstation>, seeds: map<int, int>)
    requires |ins| == 2 && |ins[0].generators| == 1 && |ins[1].generators| == 2 && |ws| == 3
    requires SeedKeys <= seeds.Keys
    reads bs, ws, ins[0].generators[0], ins[1].generators[0], ins[1].generators[1]
    reads ws[0].randomNumberGenerator, ws[1].randomNumberGenerator, ws[2].randomNumberGenerator
  {
    && AllFresh(bs) && AllUnstarted(ws)
    && ins[0].generators[0].xi == seeds[0]
    && ins[1].generators[0].xi == seeds[100000]
    && ins[1].generators[1].xi == seeds[200000]
    && ws[0].randomNumberGenerator.xi == seeds[300000]
    && ws[1].randomNumberGenerator.xi == seeds[400000]
    && ws[2].randomNumberGenerator.xi == seeds[500000]
  }

  /** The creation half of Simulation.__init__ (Simulation.py:93-95). */
  method CreateLine(seeds: map<int, int>) returns (bs: seq<Buffer>, ins: seq<Inspector>, ws: seq<Workstation>)
    requires SeedKeys <= seeds.Keys
    ensures fresh(bs) && fresh(ins) && fresh(ws) && LineReady(bs, ins, ws) && LineInitial(bs, ins, ws, seeds)
  {
    bs := CreateBuffers();
    ins := CreateInspectors(bs, seeds);
    ws := CreateWorkstations(bs, seeds);
    assert AllUnstarted(ws);
  }
}
