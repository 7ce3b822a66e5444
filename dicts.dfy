/**
 * The Python dicts of Replication.py and Batch.py map an id to a statistic and iterate in key
 * insertion order; overwriting a key keeps its place.
 */
module Dicts {

  datatype Dict = Dict(keys: seq<int>, entries: map<int, real>)

  /** Keys are listed once each, and exactly the keys of the map are listed. */
  ghost predicate Valid(d: Dict) {
    && (forall i, j :: 0 <= i < j < |d.keys| ==> d.keys[i] != d.keys[j])
    && (forall i :: 0 <= i < |d.keys| ==> d.keys[i] in d.entries)
    && (forall k :: k in d.entries ==> k in d.keys)
  }

  const Empty: Dict := Dict([], map[])

  /** `d[k] = v`. */
  function Put(d: Dict, k: int, v: real): (r: Dict)
    requires Valid(d)
    ensures Valid(r)
    ensures r.entries == d.entries[k := v]
    ensures k in d.entries ==> r.keys == d.keys
    ensures k !in d.entries ==> r.keys == d.keys + [k]
  {
    if k in d.entries then Dict(d.keys, d.entries[k := v]) else Dict(d.keys + [k], d.entries[k := v])
  }

  /** The dict built by writing vs[i] under ids[i] for i = 0, 1, ... in turn, starting from {}. */
  function Table(ids: seq<int>, vs: seq<real>): (d: Dict)
    requires |ids| == |vs|
    ensures Valid(d)
    decreases |ids|
  {
    if ids == [] then Empty else Put(Table(ids[..|ids| - 1], vs[..|vs| - 1]), ids[|ids| - 1], vs[|vs| - 1])
  }

  /** Writing one more pair extends the table of a prefix by one Put. */
  lemma {:induction false} TableSnoc(ids: seq<int>, vs: seq<real>, k: int)
    requires 0 <= k < |ids| == |vs|
    ensures Table(ids[..k + 1], vs[..k + 1]) == Put(Table(ids[..k], vs[..k]), ids[k], vs[k])
  {
    assert ids[..k + 1][..k] == ids[..k] && vs[..k + 1][..k] == vs[..k];
  }

  /** Ids listed once each. */
  ghost predicate Distinct(ids: seq<int>)
  {
    forall i, j :: 0 <= i < j < |ids| ==> ids[i] != ids[j]
  }

  /** With distinct ids, the table lists the ids in writing order. */
  lemma {:induction false} TableKeys(ids: seq<int>, vs: seq<real>)
    requires |ids| == |vs| && Distinct(ids)
    ensures Table(ids, vs).keys == ids
  {
    if ids != [] {
      var n := |ids| - 1;
      assert Distinct(ids[..n]) by {
        forall i, j | 0 <= i < j < n ensures ids[..n][i] != ids[..n][j] {
          assert ids[..n][i] == ids[i] && ids[..n][j] == ids[j];
        }
      }
      TableKeys(ids[..n], vs[..n]);
      var d := Table(ids[..n], vs[..n]);
      assert ids[n] !in d.keys by {
        forall i | 0 <= i < n ensures d.keys[i] != ids[n] {
          assert d.keys[i] == ids[i];
        }
      }
      assert ids == ids[..n] + [ids[n]];
    }
  }

  /** With distinct ids, the table maps each id to the value written with it. */
  lemma {:induction false} TableEntries(ids: seq<int>, vs: seq<real>)
    requires |ids| == |vs| && Distinct(ids)
    ensures forall i :: 0 <= i < |ids| ==> ids[i] in Table(ids, vs).entries && Table(ids, vs).entries[ids[i]] == vs[i]
  {
    if ids != [] {
      var n := |ids| - 1;
      assert Distinct(ids[..n]) by {
        forall i, j | 0 <= i < j < n ensures ids[..n][i] != ids[..n][j] {
          assert ids[..n][i] == ids[i] && ids[..n][j] == ids[j];
        }
      }
      TableEntries(ids[..n], vs[..n]);
      var d := Table(ids[..n], vs[..n]);
      assert Table(ids, vs).entries == d.entries[ids[n] := vs[n]];
      forall i | 0 <= i < n
        ensures ids[i] in Table(ids, vs).entries && Table(ids, vs).entries[ids[i]] == vs[i]
      {
        assert ids[..n][i] == ids[i] && vs[..n][i] == vs[i] && ids[i] != ids[n];
      }
    }
  }

  /** The values listed under keys, in that order. */
  function ValuesOf(keys: seq<int>, entries: map<int, real>): (vs: seq<real>)
    requires forall i :: 0 <= i < |keys| ==> keys[i] in entries
    ensures |vs| == |keys|
    ensures forall i :: 0 <= i < |keys| ==> vs[i] == entries[keys[i]]
  {
    if keys == [] then [] else ValuesOf(keys[..|keys| - 1], entries) + [entries[keys[|keys| - 1]]]
  }

  /** `[d[k] for k in d.keys()]`. */
  function Values(d: Dict): seq<real>
    requires Valid(d)
  {
    ValuesOf(d.keys, d.entries)
  }

  /** Writing a key either overwrites its value in place or appends a new value at the end. */
  lemma PutValues(d: Dict, k: int, v: real)
    requires Valid(d)
    ensures k !in d.entries ==> Values(Put(d, k, v)) == Values(d) + [v]
    ensures forall i :: 0 <= i < |d.keys| && d.keys[i] == k ==> Values(Put(d, k, v)) == Values(d)[i := v]
  {
    var r := Put(d, k, v);
    if k !in d.entries {
      assert Values(r) == Values(d) + [v];
    }
  }

  /** Statistics records serialise as the throughput followed by the three dicts' values. */
  function Flatten(throughput: real, busy: Dict, blocked: Dict, occupancy: Dict): (row: seq<real>)
    requires Valid(busy) && Valid(blocked) && Valid(occupancy)
    ensures |row| == 1 + |busy.keys| + |blocked.keys| + |occupancy.keys|
    ensures row[0] == throughput
    ensures row[1..1 + |busy.keys|] == Values(busy)
    ensures row[1 + |busy.keys|..1 + |busy.keys| + |blocked.keys|] == Values(blocked)
    ensures row[1 + |busy.keys| + |blocked.keys|..] == Values(occupancy)
  {
    [throughput] + Values(busy) + Values(blocked) + Values(occupancy)
  }

  /** The loop `for key in d.keys(): row.append(d[key])`. */
  method AppendValues(row: seq<real>, d: Dict) returns (out: seq<real>)
    requires Valid(d)
    ensures out == row + Values(d)
  {
    out := row;
    var i := 0;
    while i < |d.keys|
      invariant 0 <= i <= |d.keys|
      invariant out == row + ValuesOf(d.keys[..i], d.entries)
    {
      assert d.keys[..i + 1][..i] == d.keys[..i];
      out := out + [d.entries[d.keys[i]]];
      i := i + 1;
    }
    assert d.keys[..i] == d.keys;
  }
}
