/** A stable sort by a comparator, standing for `Array.prototype.sort(cmp)` (stable since
    ES2019) and for the database's `.sort({field: ±1})`. `le(a, b)` holds when the comparator
    does not put a after b, i.e. `cmp(a, b) <= 0`. */
module Sorting {
  import opened Common

  ghost predicate TotalPreorder<T(!new)>(le: (T, T) -> bool)
  {
    && (forall x, y :: le(x, y) || le(y, x))
    && (forall x, y, z :: le(x, y) && le(y, z) ==> le(x, z))
  }

  predicate Sorted<T>(s: seq<T>, le: (T, T) -> bool)
  {
    forall i, j :: 0 <= i < j < |s| ==> le(s[i], s[j])
  }

  /** Puts x in front of the first element it does not come after. */
  function Insert<T>(x: T, s: seq<T>, le: (T, T) -> bool): (r: seq<T>)
    ensures multiset(r) == multiset(s) + multiset{x}
    ensures |r| == |s| + 1
  {
    if s == [] || le(x, s[0]) then [x] + s
    else
      assert s == [s[0]] + s[1..];
      [s[0]] + Insert(x, s[1..], le)
  }

  function Sort<T>(s: seq<T>, le: (T, T) -> bool): (r: seq<T>)
    ensures multiset(r) == multiset(s)
    ensures |r| == |s|
  {
    if s == [] then []
    else
      assert s == [s[0]] + s[1..];
      Insert(s[0], Sort(s[1..], le), le)
  }

  lemma {:induction false} InsertSorted<T(!new)>(x: T, s: seq<T>, le: (T, T) -> bool)
    requires TotalPreorder(le)
    requires Sorted(s, le)
    ensures Sorted(Insert(x, s, le), le)
  {
    if s != [] && !le(x, s[0]) {
      InsertSorted(x, s[1..], le);
      var r := Insert(x, s, le);
      var tail := Insert(x, s[1..], le);
      assert r == [s[0]] + tail;
      forall j | 0 < j < |r| ensures le(s[0], r[j]) {
        assert r[j] in multiset(tail);
        assert r[j] in multiset(s[1..]) + multiset{x};
        if r[j] != x {
          assert r[j] in s[1..];
          var k :| 0 <= k < |s[1..]| && s[1..][k] == r[j];
          assert s[k + 1] == r[j];
        }
      }
    }
  }

  /** The sorted result is ordered by the comparator. */
  lemma {:induction false} SortSorted<T(!new)>(s: seq<T>, le: (T, T) -> bool)
    requires TotalPreorder(le)
    ensures Sorted(Sort(s, le), le)
  {
    if s != [] {
      SortSorted(s[1..], le);
      InsertSorted(s[0], Sort(s[1..], le), le);
    }
  }

  /** Sorting what is already in order changes nothing. */
  lemma {:induction false} SortOfSorted<T(!new)>(s: seq<T>, le: (T, T) -> bool)
    requires TotalPreorder(le)
    requires Sorted(s, le)
    ensures Sort(s, le) == s
  {
    if s != [] {
      assert Sorted(s[1..], le);
      SortOfSorted(s[1..], le);
      assert s == [s[0]] + s[1..];
    }
  }

  /** Every value that is in the sorted result is in the input and vice versa. */
  lemma SortMembers<T>(s: seq<T>, le: (T, T) -> bool, x: T)
    ensures x in Sort(s, le) <==> x in s
  {
    assert x in Sort(s, le) <==> x in multiset(Sort(s, le));
    assert x in s <==> x in multiset(s);
  }

  /** x goes in front of a sorted sequence whose first element it may precede. */
  lemma InsertFront<T(!new)>(x: T, t: seq<T>, le: (T, T) -> bool, p: T -> bool)
    requires TotalPreorder(le)
    requires Sorted(t, le) && t != [] && le(x, t[0])
    ensures Insert(x, Filter(t, p), le) == [x] + Filter(t, p)
  {
    var f := Filter(t, p);
    if f != [] {
      FilterKeeps(t, p, f[0]);
      var k :| 0 <= k < |t| && t[k] == f[0];
      assert k == 0 || le(t[0], t[k]);
    }
  }

  lemma FilterCons<T>(x: T, t: seq<T>, p: T -> bool)
    ensures Filter([x] + t, p) == (if p(x) then [x] else []) + Filter(t, p)
  {
    assert ([x] + t)[1..] == t;
  }

  lemma InsertBehind<T>(x: T, y: T, u: seq<T>, le: (T, T) -> bool)
    requires !le(x, y)
    ensures Insert(x, [y] + u, le) == [y] + Insert(x, u, le)
  {
    assert ([y] + u)[0] == y && ([y] + u)[1..] == u;
  }

  /** The inductive step of `InsertFilter` when x goes past the first element. */
  lemma InsertFilterBehind<T>(x: T, t: seq<T>, le: (T, T) -> bool, p: T -> bool)
    requires t != [] && !le(x, t[0])
    requires Filter(Insert(x, t[1..], le), p) == if p(x) then Insert(x, Filter(t[1..], p), le) else Filter(t[1..], p)
    ensures Filter(Insert(x, t, le), p) == if p(x) then Insert(x, Filter(t, p), le) else Filter(t, p)
  {
    var y, rest := t[0], t[1..];
    var ins := Insert(x, rest, le);
    var fr := Filter(rest, p);
    var head := if p(y) then [y] else [];
    assert Insert(x, t, le) == [y] + ins;
    FilterCons(y, ins, p);
    assert Filter(t, p) == head + fr;
    if p(x) && p(y) {
      InsertBehind(x, y, fr, le);
    } else if p(x) {
      assert head + fr == fr;
      assert head + Filter(ins, p) == Filter(ins, p);
    }
  }

  lemma SortedTail<T>(t: seq<T>, le: (T, T) -> bool)
    requires Sorted(t, le) && t != []
    ensures Sorted(t[1..], le)
  {
  }

  /** The inductive step of `InsertFilter` when x goes in front of the first element. */
  lemma InsertFilterFront<T(!new)>(x: T, t: seq<T>, le: (T, T) -> bool, p: T -> bool)
    requires TotalPreorder(le)
    requires Sorted(t, le) && t != [] && le(x, t[0])
    ensures Filter(Insert(x, t, le), p) == if p(x) then Insert(x, Filter(t, p), le) else Filter(t, p)
  {
    var head := if p(x) then [x] else [];
    calc {
      Filter(Insert(x, t, le), p);
      Filter([x] + t, p);
      { FilterCons(x, t, p); }
      head + Filter(t, p);
    }
    if p(x) {
      InsertFront(x, t, le, p);
    } else {
      assert head + Filter(t, p) == Filter(t, p);
    }
  }

  /** Dropping the elements that fail a test from a sorted sequence with x inserted is
      inserting x, if it passes, into the sorted survivors. */
  lemma {:induction false} InsertFilter<T(!new)>(x: T, t: seq<T>, le: (T, T) -> bool, p: T -> bool)
    requires TotalPreorder(le)
    requires Sorted(t, le)
    ensures Filter(Insert(x, t, le), p) == if p(x) then Insert(x, Filter(t, p), le) else Filter(t, p)
  {
    if t == [] {
      assert Insert(x, t, le) == [x];
      assert Filter([x], p) == if p(x) then [x] else [];
    } else if le(x, t[0]) {
      InsertFilterFront(x, t, le, p);
    } else {
      SortedTail(t, le);
      InsertFilter(x, t[1..], le, p);
      InsertFilterBehind(x, t, le, p);
    }
  }

  /** Sorting the survivors of a non-empty sequence is inserting its first element, if it
      survives, into the sorted survivors of the rest. */
  lemma SortFilterCons<T>(s: seq<T>, le: (T, T) -> bool, p: T -> bool)
    requires s != []
    ensures Sort(Filter(s, p), le)
         == if p(s[0]) then Insert(s[0], Sort(Filter(s[1..], p), le), le) else Sort(Filter(s[1..], p), le)
  {
    var kept := Filter(s[1..], p);
    assert Filter(s, p) == (if p(s[0]) then [s[0]] else []) + kept;
    if p(s[0]) {
      var f := [s[0]] + kept;
      assert f[0] == s[0] && f[1..] == kept;
    } else {
      assert Filter(s, p) == kept;
    }
  }

  /** Stable sorting commutes with filtering: the survivors of the sorted sequence are the
      sorted survivors. */
  lemma {:induction false} SortFilter<T(!new)>(s: seq<T>, le: (T, T) -> bool, p: T -> bool)
    requires TotalPreorder(le)
    ensures Filter(Sort(s, le), p) == Sort(Filter(s, p), le)
  {
    if s != [] {
      var sorted := Sort(s[1..], le);
      SortSorted(s[1..], le);
      InsertFilter(s[0], sorted, le, p);
      SortFilter(s[1..], le, p);
      SortFilterCons(s, le, p);
    }
  }

  /** Filtering keeps a sorted sequence sorted. */
  lemma {:induction false} FilterSorted<T>(s: seq<T>, le: (T, T) -> bool, p: T -> bool)
    requires Sorted(s, le)
    ensures Sorted(Filter(s, p), le)
  {
    if s != [] {
      var rest := Filter(s[1..], p);
      FilterSorted(s[1..], le, p);
      FilterCons(s[0], s[1..], p);
      assert s == [s[0]] + s[1..];
      forall y | y in rest ensures le(s[0], y) {
        FilterKeeps(s[1..], p, y);
        var k :| 0 <= k < |s[1..]| && s[1..][k] == y;
        assert s[k + 1] == y;
      }
    }
  }
}
