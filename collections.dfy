/** A stored collection is a sequence of documents, each carrying its id. These are the
    by-id operations the routes use (`findById`, `findByIdAndUpdate`, `findByIdAndDelete`,
    `deleteMany`), and the invariant a collection keeps: ids are distinct and shorter than
    the next id to be minted. */
module Collections {
  import opened Common

  /** No two documents share a key: ids, or a field under a unique index. */
  ghost predicate DistinctBy<T, K>(s: seq<T>, key: T -> K)
  {
    forall i, j :: 0 <= i < j < |s| ==> key(s[i]) != key(s[j])
  }

  ghost predicate Keyed<T>(s: seq<T>, key: T -> Id, bound: nat)
  {
    && DistinctBy(s, key)
    && (forall i :: 0 <= i < |s| ==> 0 < |key(s[i])| <= bound)
  }

  predicate HasKey<T>(s: seq<T>, key: T -> Id, id: Id)
  {
    exists i :: 0 <= i < |s| && key(s[i]) == id
  }

  /** `findById`: the first document with that id, or null. */
  function FindBy<T>(s: seq<T>, key: T -> Id, id: Id): (r: Option<T>)
    ensures r.Some? <==> HasKey(s, key, id)
    ensures r.Some? ==> r.value in s && key(r.value) == id
  {
    if s == [] then None
    else if key(s[0]) == id then Some(s[0])
    else
      var r := FindBy(s[1..], key, id);
      assert HasKey(s, key, id) ==> HasKey(s[1..], key, id) by {
        if HasKey(s, key, id) {
          var i :| 0 <= i < |s| && key(s[i]) == id;
          assert s[1..][i - 1] == s[i];
        }
      }
      assert HasKey(s[1..], key, id) ==> HasKey(s, key, id) by {
        if HasKey(s[1..], key, id) {
          var i :| 0 <= i < |s[1..]| && key(s[1..][i]) == id;
          assert s[i + 1] == s[1..][i];
        }
      }
      r
  }

  /** `findByIdAndUpdate`: the document with that id is replaced by `f` of it. */
  function UpdateBy<T>(s: seq<T>, key: T -> Id, id: Id, f: T -> T): (r: seq<T>)
    ensures |r| == |s|
    ensures forall i :: 0 <= i < |s| ==> r[i] == if key(s[i]) == id then f(s[i]) else s[i]
  {
    seq(|s|, i requires 0 <= i < |s| => if key(s[i]) == id then f(s[i]) else s[i])
  }

  /** `x => x.id !== id` */
  function KeyIsNot<T>(key: T -> Id, id: Id): T -> bool
  {
    (x: T) => key(x) != id
  }

  /** `deleteMany` / `findByIdAndDelete`: the documents whose key is `id` go. */
  function RemoveBy<T(!new)>(s: seq<T>, key: T -> Id, id: Id): (r: seq<T>)
    ensures forall x :: x in r <==> x in s && key(x) != id
    ensures Subsequence(r, s)
  {
    var r := Filter(s, KeyIsNot(key, id));
    forall x ensures x in r <==> x in s && key(x) != id {
      FilterKeeps(s, KeyIsNot(key, id), x);
    }
    FilterIsSubsequence(s, KeyIsNot(key, id));
    r
  }

  /** Removing a key nobody has changes nothing. */
  lemma RemoveMissing<T(!new)>(s: seq<T>, key: T -> Id, id: Id)
    requires !HasKey(s, key, id)
    ensures RemoveBy(s, key, id) == s
  {
    FilterAllPass(s, KeyIsNot(key, id));
  }

  /** After an update that keeps keys, `findById` finds the updated document. */
  lemma {:induction false} FindUpdated<T>(s: seq<T>, key: T -> Id, id: Id, f: T -> T)
    requires forall x :: key(f(x)) == key(x)
    ensures var r := FindBy(UpdateBy(s, key, id, f), key, id);
            && (r.Some? <==> FindBy(s, key, id).Some?)
            && (r.Some? ==> r.value == f(FindBy(s, key, id).value))
  {
    if s != [] && key(s[0]) != id {
      assert UpdateBy(s, key, id, f)[1..] == UpdateBy(s[1..], key, id, f);
      FindUpdated(s[1..], key, id, f);
    }
  }

  /** A query over the collection after the document with key `id` was updated so that the
      query no longer matches it: the old answer without that document. */
  lemma {:induction false} FilterUpdated<T>(s: seq<T>, key: T -> Id, id: Id, f: T -> T, p: T -> bool)
    requires forall x :: !p(f(x))
    ensures Filter(UpdateBy(s, key, id, f), p) == Filter(Filter(s, p), KeyIsNot(key, id))
  {
    if s != [] {
      var after := UpdateBy(s, key, id, f);
      assert after[1..] == UpdateBy(s[1..], key, id, f);
      FilterUpdated(s[1..], key, id, f, p);
      FilterConcat(Filter([s[0]], p), Filter(s[1..], p), KeyIsNot(key, id));
      assert Filter(s, p) == Filter([s[0]], p) + Filter(s[1..], p) by {
        FilterConcat([s[0]], s[1..], p);
        assert s == [s[0]] + s[1..];
      }
    }
  }

  /** A query over the collection after the document with key `id` was deleted: the old
      answer without that document. */
  lemma FilterRemoved<T(!new)>(s: seq<T>, key: T -> Id, id: Id, p: T -> bool)
    ensures Filter(RemoveBy(s, key, id), p) == Filter(Filter(s, p), KeyIsNot(key, id))
  {
    var both := (x: T) => p(x) && KeyIsNot(key, id)(x);
    FilterFilter(s, KeyIsNot(key, id), p, both);
    FilterFilter(s, p, KeyIsNot(key, id), both);
  }

  /** Updating a key nobody has changes nothing. */
  lemma UpdateMissing<T>(s: seq<T>, key: T -> Id, id: Id, f: T -> T)
    requires !HasKey(s, key, id)
    ensures UpdateBy(s, key, id, f) == s
  {
  }

  /** With distinct ids, an update touches exactly one document. */
  lemma UpdateOne<T>(s: seq<T>, key: T -> Id, bound: nat, id: Id, f: T -> T, k: nat)
    requires Keyed(s, key, bound)
    requires k < |s| && key(s[k]) == id
    ensures UpdateBy(s, key, id, f) == s[..k] + [f(s[k])] + s[k + 1..]
  {
    var r := UpdateBy(s, key, id, f);
    var t := s[..k] + [f(s[k])] + s[k + 1..];
    assert |r| == |t|;
    forall i | 0 <= i < |r| ensures r[i] == t[i] {
      if i != k {
        assert key(s[i]) != key(s[k]);
      }
    }
  }

  /** A fresh document keeps the invariant and moves the bound on. */
  lemma KeyedAppend<T>(s: seq<T>, key: T -> Id, bound: nat, x: T)
    requires Keyed(s, key, bound)
    requires |key(x)| == bound + 1
    ensures Keyed(s + [x], key, bound + 1)
  {
    var t := s + [x];
    forall i, j | 0 <= i < j < |t| ensures key(t[i]) != key(t[j]) {
      if j == |s| {
        assert |key(t[i])| <= bound;
      }
    }
  }

  /** A batch of fresh documents, with distinct ids all longer than the old bound. */
  lemma KeyedExtend<T>(s: seq<T>, t: seq<T>, key: T -> Id, bound: nat, bound': nat)
    requires Keyed(s, key, bound) && bound <= bound'
    requires DistinctBy(t, key)
    requires forall i :: 0 <= i < |t| ==> bound < |key(t[i])| <= bound'
    ensures Keyed(s + t, key, bound')
  {
    var u := s + t;
    forall i, j | 0 <= i < j < |u| ensures key(u[i]) != key(u[j]) {
      if i < |s| <= j {
        assert |key(u[i])| <= bound < |key(t[j - |s|])|;
      } else if |s| <= i {
        assert u[i] == t[i - |s|] && u[j] == t[j - |s|];
      }
    }
  }

  lemma KeyedGrow<T>(s: seq<T>, key: T -> Id, bound: nat, bound': nat)
    requires Keyed(s, key, bound) && bound <= bound'
    ensures Keyed(s, key, bound')
  {
  }

  /** An update that keeps ids keeps the invariant. */
  lemma KeyedUpdate<T>(s: seq<T>, key: T -> Id, bound: nat, id: Id, f: T -> T)
    requires Keyed(s, key, bound)
    requires forall x :: key(f(x)) == key(x)
    ensures Keyed(UpdateBy(s, key, id, f), key, bound)
  {
  }

  /** Removing documents keeps keys distinct. */
  lemma {:induction false} DistinctSubsequence<T, K>(r: seq<T>, s: seq<T>, key: T -> K)
    requires DistinctBy(s, key)
    requires Subsequence(r, s)
    ensures DistinctBy(r, key)
    decreases |s|
  {
    if r != [] && s != [] {
      assert DistinctBy(s[1..], key);
      if r[0] == s[0] {
        DistinctSubsequence(r[1..], s[1..], key);
        forall j | 0 < j < |r| ensures key(r[0]) != key(r[j]) {
          assert r[1..][j - 1] == r[j];
          SubsequenceMember(r[1..], s[1..], r[j]);
          var k :| 0 <= k < |s[1..]| && s[1..][k] == r[j];
          assert s[k + 1] == r[j];
        }
        assert r == [r[0]] + r[1..];
      } else {
        DistinctSubsequence(r, s[1..], key);
      }
    }
  }

  /** Removing documents keeps the invariant. */
  lemma KeyedSubsequence<T>(r: seq<T>, s: seq<T>, key: T -> Id, bound: nat)
    requires Keyed(s, key, bound)
    requires Subsequence(r, s)
    ensures Keyed(r, key, bound)
  {
    DistinctSubsequence(r, s, key);
    forall i | 0 <= i < |r| ensures 0 < |key(r[i])| <= bound {
      SubsequenceMember(r, s, r[i]);
    }
  }

  lemma SubsequenceMember<T>(r: seq<T>, s: seq<T>, x: T)
    requires Subsequence(r, s)
    requires x in r
    ensures x in s
    decreases |s|
  {
    if r[0] == s[0] {
      if x != r[0] {
        assert x in r[1..];
        SubsequenceMember(r[1..], s[1..], x);
      }
    } else {
      SubsequenceMember(r, s[1..], x);
    }
  }
}
