/**
 * The future-event list's ordering (Simulation.py:112-129): Python's list.sort with key
 * startTime is a stable sort, modelled here as an insertion sort that places every element
 * after all earlier elements whose start time is not larger.
 */
module Fel {
  import opened Events

  /** Non-decreasing start times. */
  ghost predicate Sorted(s: seq<Event>) {
    forall i, j :: 0 <= i < j < |s| ==> s[i].startTime <= s[j].startTime
  }

  /** Every event in s starts at or after t. */
  ghost predicate NotBefore(s: seq<Event>, t: real) {
    forall i :: 0 <= i < |s| ==> t <= s[i].startTime
  }

  /** The events of s that start exactly at t, in their order in s. */
  function AtTime(s: seq<Event>, t: real): (r: seq<Event>)
    ensures |r| <= |s|
  {
    if s == [] then []
    else AtTime(s[..|s| - 1], t) + (if s[|s| - 1].startTime == t then [s[|s| - 1]] else [])
  }

  /** Puts e into the sorted list s after every event that does not start later than e. */
  function Insert(s: seq<Event>, e: Event): seq<Event>
  {
    if s == [] || e.startTime < s[0].startTime then [e] + s
    else [s[0]] + Insert(s[1..], e)
  }

  /** list.sort(key=startTime): a stable sort. */
  function SortByStart(s: seq<Event>): seq<Event>
  {
    if s == [] then [] else Insert(SortByStart(s[..|s| - 1]), s[|s| - 1])
  }

  lemma {:induction false} AtTimeAppend(a: seq<Event>, b: seq<Event>, t: real)
    ensures AtTime(a + b, t) == AtTime(a, t) + AtTime(b, t)
    decreases |b|
  {
    if b == [] {
      assert a + b == a;
    } else {
      assert (a + b)[..|a + b| - 1] == a + b[..|b| - 1];
      AtTimeAppend(a, b[..|b| - 1], t);
    }
  }

  lemma {:induction false} AtTimeCons(e: Event, s: seq<Event>, t: real)
    ensures AtTime([e] + s, t) == (if e.startTime == t then [e] else []) + AtTime(s, t)
  {
    AtTimeAppend([e], s, t);
    assert [e][..0] == [];
  }

  /** No event of a list that starts after t starts at t. */
  lemma {:induction false} AtTimeNone(s: seq<Event>, t: real)
    requires forall i :: 0 <= i < |s| ==> t < s[i].startTime
    ensures AtTime(s, t) == []
  {
    if s != [] {
      AtTimeNone(s[..|s| - 1], t);
    }
  }

  lemma {:induction false} InsertPermutes(s: seq<Event>, e: Event)
    ensures multiset(Insert(s, e)) == multiset(s) + multiset{e}
  {
    if s != [] && e.startTime >= s[0].startTime {
      InsertPermutes(s[1..], e);
      assert s == [s[0]] + s[1..];
    }
  }

  lemma {:induction false} InsertSorted(s: seq<Event>, e: Event)
    requires Sorted(s)
    ensures Sorted(Insert(s, e))
  {
    if s != [] && e.startTime >= s[0].startTime {
      var rest := Insert(s[1..], e);
      InsertSorted(s[1..], e);
      InsertPermutes(s[1..], e);
      forall j | 0 <= j < |rest| ensures s[0].startTime <= rest[j].startTime {
        var x := rest[j];
        assert x in multiset(rest);
        if x != e {
          assert x in multiset(s[1..]);
          var k :| 0 <= k < |s[1..]| && s[1..][k] == x;
          assert s[k + 1] == x;
        }
      }
    }
  }

  /** An event placed before the whole list joins the events at its start time after all of them. */
  lemma {:induction false} InsertAtFront(s: seq<Event>, e: Event, t: real)
    requires Sorted(s) && (s == [] || e.startTime < s[0].startTime)
    ensures AtTime([e] + s, t) == AtTime(s, t) + (if e.startTime == t then [e] else [])
  {
    AtTimeCons(e, s, t);
    if e.startTime == t {
      AtTimeNone(s, t);
    }
  }

  /** Putting the same event in front of two lists keeps what one adds to the other at time t. */
  lemma {:induction false} AtTimeConsBoth(x: Event, u: seq<Event>, v: seq<Event>, extra: seq<Event>, t: real)
    requires AtTime(v, t) == AtTime(u, t) + extra
    ensures AtTime([x] + v, t) == AtTime([x] + u, t) + extra
  {
    AtTimeCons(x, v, t);
    AtTimeCons(x, u, t);
    var head := if x.startTime == t then [x] else [];
    assert head + (AtTime(u, t) + extra) == (head + AtTime(u, t)) + extra;
  }

  lemma {:induction false} InsertAtTime(s: seq<Event>, e: Event, t: real)
    requires Sorted(s)
    ensures AtTime(Insert(s, e), t) == AtTime(s, t) + (if e.startTime == t then [e] else [])
  {
    if s == [] || e.startTime < s[0].startTime {
      InsertAtFront(s, e, t);
    } else {
      InsertAtTime(s[1..], e, t);
      AtTimeConsBoth(s[0], s[1..], Insert(s[1..], e), if e.startTime == t then [e] else [], t);
      assert s == [s[0]] + s[1..];
    }
  }

  lemma {:induction false} InsertFacts(s: seq<Event>, e: Event)
    requires Sorted(s)
    ensures Sorted(Insert(s, e))
    ensures multiset(Insert(s, e)) == multiset(s) + multiset{e}
    ensures forall t :: AtTime(Insert(s, e), t) == AtTime(s, t) + (if e.startTime == t then [e] else [])
  {
    InsertSorted(s, e);
    InsertPermutes(s, e);
    forall t ensures AtTime(Insert(s, e), t) == AtTime(s, t) + (if e.startTime == t then [e] else []) {
      InsertAtTime(s, e, t);
    }
  }

  /** The sort yields a sorted permutation that keeps the relative order of equal-start events. */
  lemma {:induction false} SortByStartCorrect(s: seq<Event>)
    ensures Sorted(SortByStart(s))
    ensures multiset(SortByStart(s)) == multiset(s)
    ensures forall t :: AtTime(SortByStart(s), t) == AtTime(s, t)
  {
    if s != [] {
      var init, last := s[..|s| - 1], s[|s| - 1];
      SortByStartCorrect(init);
      InsertFacts(SortByStart(init), last);
      assert s == init + [last];
      forall t ensures AtTime(SortByStart(s), t) == AtTime(s, t) {
        AtTimeAppend(init, [last], t);
        assert [last][..0] == [];
      }
    }
  }

  /** Inserting an event that starts no earlier than the last one appends it. */
  lemma {:induction false} InsertAtEnd(s: seq<Event>, e: Event)
    requires Sorted(s)
    requires forall i :: 0 <= i < |s| ==> s[i].startTime <= e.startTime
    ensures Insert(s, e) == s + [e]
  {
    if s != [] {
      InsertAtEnd(s[1..], e);
      assert s == [s[0]] + s[1..];
    }
  }

  /** Sorting an already sorted list changes nothing. */
  lemma {:induction false} SortSortedIsIdentity(s: seq<Event>)
    requires Sorted(s)
    ensures SortByStart(s) == s
  {
    if s != [] {
      var init := s[..|s| - 1];
      SortSortedIsIdentity(init);
      InsertAtEnd(init, s[|s| - 1]);
      assert s == init + [s[|s| - 1]];
    }
  }

  /**
   * Appending e to a sorted list and sorting places e after every event that does not start later,
   * which is what makes new equal-start events land behind the ones already scheduled.
   */
  lemma {:induction false} AppendThenSortIsInsert(s: seq<Event>, e: Event)
    requires Sorted(s)
    ensures SortByStart(s + [e]) == Insert(s, e)
  {
    assert (s + [e])[..|s + [e]| - 1] == s;
    SortSortedIsIdentity(s);
  }

  /** Re-sorting after appending to a sorted list equals sorting the whole: appends may be batched. */
  lemma {:induction false} ResortIsSort(s: seq<Event>, es: seq<Event>)
    ensures SortByStart(SortByStart(s) + es) == SortByStart(s + es)
    decreases |es|
  {
    if es == [] {
      assert s + es == s;
      assert SortByStart(s) + es == SortByStart(s);
      SortByStartCorrect(s);
      SortSortedIsIdentity(SortByStart(s));
    } else {
      var init, last := es[..|es| - 1], es[|es| - 1];
      ResortIsSort(s, init);
      assert (SortByStart(s) + es)[..|SortByStart(s) + es| - 1] == SortByStart(s) + init;
      assert (s + es)[..|s + es| - 1] == s + init;
    }
  }

  /** Events added to the list come after every scheduled event with the same start time. */
  lemma {:induction false} AddedLandAfter(s: seq<Event>, es: seq<Event>, t: real)
    ensures AtTime(SortByStart(s + es), t) == AtTime(s, t) + AtTime(es, t)
  {
    SortByStartCorrect(s + es);
    AtTimeAppend(s, es, t);
  }

  /** A lower bound on the start times survives any reordering. */
  lemma {:induction false} NotBeforePermutation(s: seq<Event>, r: seq<Event>, t: real)
    requires NotBefore(s, t) && multiset(r) == multiset(s)
    ensures NotBefore(r, t)
  {
    forall i | 0 <= i < |r| ensures t <= r[i].startTime {
      assert r[i] in multiset(s);
      var k :| 0 <= k < |s| && s[k] == r[i];
    }
  }

  /** A lower bound on two lists is one on their concatenation. */
  lemma {:induction false} NotBeforeConcat(a: seq<Event>, b: seq<Event>, t: real)
    requires NotBefore(a, t) && NotBefore(b, t)
    ensures NotBefore(a + b, t)
  {
    forall i | 0 <= i < |a + b| ensures t <= (a + b)[i].startTime {
      if i >= |a| {
        assert (a + b)[i] == b[i - |a|];
      }
    }
  }
}
