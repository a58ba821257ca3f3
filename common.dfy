/** Values and string helpers shared by every part of the tracker model. */
module Common {

  datatype Option<+T> = None | Some(value: T)
  {
    function GetOr(default: T): T
    {
      match this
      case Some(v) => v
      case None => default
    }
  }

  /** Why a backend route did not answer with a document. The first three are answers the
      routes send themselves, `{ message }` with status 400, 403 ("Admin only", from the admin
      gate) and 404; the last three are exceptions the routes do not catch. */
  datatype ApiError =
    | BadRequest(message: string)
    | Forbidden
    | NotFound(message: string)
    | Invalid(field: string)        // a schema `required` check failed
    | Duplicate(field: string)      // a unique index refused the write
    | ServerError(cause: string)    // another call threw (e.g. hashing an absent password)

  datatype Result<+T> = Ok(value: T) | Err(error: ApiError)

  /** What a client-side handler ends with: done, or failed with the message it shows. */
  datatype Outcome<+T> = Done(value: T) | Failed(message: string)

  /** What a client's query or request answers: the rows (`data`, which may be null), or an
      error. */
  datatype Query<T> = Rows(data: Option<seq<T>>) | QueryFailed(message: string)
  {
    /** `data || []` */
    function RowsOr(): seq<T>
      requires Rows?
    {
      data.GetOr([])
    }
  }

  /** Identifiers of stored documents and of form selections. */
  type Id = string

  /** A stand-in for a freshly minted document id: ids minted from distinct counters differ
      (they differ in length), and none is the empty string. */
  function IdOf(n: nat): (id: Id)
    ensures |id| == n + 1
  {
    seq(n + 1, _ => '#')
  }

  /** An untyped request-body value, as far as JavaScript truthiness and `typeof` see it. */
  datatype Json = Undefined | Null | Bool(b: bool) | Number(n: int) | Str(s: string) | Object

  /** `!!v` */
  predicate JsTruthy(v: Json)
  {
    match v
    case Undefined => false
    case Null => false
    case Bool(b) => b
    case Number(n) => n != 0
    case Str(s) => s != ""
    case Object => true
  }

  /** An optional string is truthy when it is present and non-empty. */
  predicate Present(s: Option<string>)
  {
    s.Some? && s.value != ""
  }

  /** `s || fallback` on an optional string. */
  function OrElse(s: Option<string>, fallback: string): (r: string)
    ensures Present(s) ==> r == s.value
    ensures !Present(s) ==> r == fallback
  {
    if Present(s) then s.value else fallback
  }

  /** `a || b` on two optional strings. */
  function FirstPresent(a: Option<string>, b: Option<string>): (r: Option<string>)
    ensures Present(a) ==> r == a
    ensures !Present(a) ==> r == b
  {
    if Present(a) then a else b
  }

  /** `s || null` on an optional string: empty and missing both become null. */
  function OrNull(s: Option<string>): (r: Option<string>)
    ensures r == None || (r == s && s.value != "")
    ensures Present(s) <==> r != None
  {
    if Present(s) then s else None
  }

  /** `s || null` on a form field that holds '' when nothing is selected. */
  function EmptyToNull(s: string): (r: Option<string>)
    ensures r == None <==> s == ""
    ensures r != None ==> r.value == s
  {
    if s == "" then None else Some(s)
  }

  // ---------------------------------------------------------------------------------------
  // Ordering of strings. `localeCompare` is modelled by lexicographic comparison of code
  // points, a total order; `Array.prototype.sort()` without a comparator compares UTF-16 code
  // units, which agrees with it except for characters beyond U+FFFF.

  function Compare(a: string, b: string): (c: int)
    ensures -1 <= c <= 1
    ensures c == 0 <==> a == b
  {
    if a == [] then (if b == [] then 0 else -1)
    else if b == [] then 1
    else if a[0] < b[0] then -1
    else if a[0] > b[0] then 1
    else
      var c := Compare(a[1..], b[1..]);
      assert c == 0 ==> a == [a[0]] + a[1..] == [b[0]] + b[1..] == b;
      c
  }

  lemma {:induction false} CompareAntisymmetric(a: string, b: string)
    ensures Compare(a, b) == -Compare(b, a)
  {
    if a != [] && b != [] && a[0] == b[0] {
      CompareAntisymmetric(a[1..], b[1..]);
    }
  }

  lemma {:induction false} CompareTransitive(a: string, b: string, c: string)
    requires Compare(a, b) <= 0 && Compare(b, c) <= 0
    ensures Compare(a, c) <= 0
  {
    if a != [] && b != [] && c != [] && a[0] == b[0] == c[0] {
      CompareTransitive(a[1..], b[1..], c[1..]);
    }
  }

  predicate StrLe(a: string, b: string)
  {
    Compare(a, b) <= 0
  }

  lemma StrLeTotal(a: string, b: string)
    ensures StrLe(a, b) || StrLe(b, a)
  {
    CompareAntisymmetric(a, b);
  }

  // ---------------------------------------------------------------------------------------
  // Filtering and subsequences.

  function Filter<T>(s: seq<T>, p: T -> bool): (r: seq<T>)
    ensures |r| <= |s|
    ensures forall i :: 0 <= i < |r| ==> p(r[i])
    ensures multiset(r) <= multiset(s)
  {
    if s == [] then []
    else
      assert s == [s[0]] + s[1..];
      (if p(s[0]) then [s[0]] else []) + Filter(s[1..], p)
  }

  /** An element is kept exactly when it occurs in the input and passes the test. */
  lemma {:induction false} FilterKeeps<T>(s: seq<T>, p: T -> bool, x: T)
    ensures x in Filter(s, p) <==> x in s && p(x)
  {
    if s != [] {
      FilterKeeps(s[1..], p, x);
      assert s == [s[0]] + s[1..];
    }
  }

  lemma {:induction false} FilterConcat<T>(a: seq<T>, b: seq<T>, p: T -> bool)
    ensures Filter(a + b, p) == Filter(a, p) + Filter(b, p)
  {
    if a == [] {
      assert a + b == b;
    } else {
      assert (a + b)[1..] == a[1..] + b;
      FilterConcat(a[1..], b, p);
    }
  }

  lemma {:induction false} FilterAllPass<T>(s: seq<T>, p: T -> bool)
    requires forall x :: x in s ==> p(x)
    ensures Filter(s, p) == s
  {
    if s != [] {
      FilterAllPass(s[1..], p);
    }
  }

  lemma {:induction false} FilterNonePass<T>(s: seq<T>, p: T -> bool)
    requires forall x :: x in s ==> !p(x)
    ensures Filter(s, p) == []
  {
    if s != [] {
      FilterNonePass(s[1..], p);
    }
  }

  /** Filtering twice is filtering once by both tests. */
  lemma {:induction false} FilterFilter<T>(s: seq<T>, p: T -> bool, q: T -> bool, both: T -> bool)
    requires forall x :: both(x) == (p(x) && q(x))
    ensures Filter(Filter(s, p), q) == Filter(s, both)
  {
    if s != [] {
      FilterFilter(s[1..], p, q, both);
      var head := if p(s[0]) then [s[0]] else [];
      FilterConcat(head, Filter(s[1..], p), q);
      if p(s[0]) {
        assert Filter(head, q) == (if q(s[0]) then [s[0]] else []) + Filter([], q);
      }
    }
  }

  /** The distinct elements of s in order of first occurrence (`Array.from(new Set(s))`). */
  function Dedupe<T(==,!new)>(s: seq<T>): (r: seq<T>)
    ensures forall x :: x in r <==> x in s
    ensures forall x :: multiset(r)[x] <= 1
  {
    if s == [] then []
    else
      var rest := Dedupe(s[..|s| - 1]);
      var last := s[|s| - 1];
      assert s == s[..|s| - 1] + [last];
      if last in rest then rest else rest + [last]
  }

  /** A sequence in which nothing occurs twice has no repeated positions. */
  lemma NoRepeats<T>(s: seq<T>, i: nat, j: nat)
    requires forall x :: multiset(s)[x] <= 1
    requires i < j < |s|
    ensures s[i] != s[j]
  {
    assert s == s[..j] + s[j..];
    assert s[..j][i] == s[i];
    assert s[j..][0] == s[j];
    assert multiset(s[..j])[s[i]] >= 1 && multiset(s[j..])[s[j]] >= 1;
    assert multiset(s) == multiset(s[..j]) + multiset(s[j..]);
    assert multiset(s)[s[j]] == multiset(s[..j])[s[j]] + multiset(s[j..])[s[j]];
  }

  /** r can be obtained from s by deleting elements: order (and multiplicity) is kept. */
  predicate Subsequence<T(==)>(r: seq<T>, s: seq<T>)
    decreases |s|
  {
    if r == [] then true
    else if s == [] then false
    else if r[0] == s[0] then Subsequence(r[1..], s[1..])
    else Subsequence(r, s[1..])
  }

  lemma {:induction false} FilterIsSubsequence<T>(s: seq<T>, p: T -> bool)
    ensures Subsequence(Filter(s, p), s)
  {
    if s != [] {
      FilterIsSubsequence(s[1..], p);
      var rest := Filter(s[1..], p);
      if p(s[0]) {
        assert Filter(s, p)[1..] == rest;
      } else {
        assert Filter(s, p) == rest;
        assert rest != [] ==> p(rest[0]) && rest[0] != s[0];
      }
    }
  }

  /** `s.map(f)` */
  function Map<A, B>(s: seq<A>, f: A -> B): (r: seq<B>)
    ensures |r| == |s|
    ensures forall i :: 0 <= i < |s| ==> r[i] == f(s[i])
  {
    if s == [] then [] else [f(s[0])] + Map(s[1..], f)
  }

  /** Mapping a function that leaves every element as it is gives the sequence back. */
  lemma MapFixed<T>(s: seq<T>, f: T -> T)
    requires forall i :: 0 <= i < |s| ==> f(s[i]) == s[i]
    ensures Map(s, f) == s
  {
  }

  /** Filtering mapped values by a test that agrees with one on the originals. */
  lemma {:induction false} FilterMap<A, B>(s: seq<A>, f: A -> B, p: A -> bool, q: B -> bool)
    requires forall x :: q(f(x)) == p(x)
    ensures Filter(Map(s, f), q) == Map(Filter(s, p), f)
  {
    if s != [] {
      FilterMap(s[1..], f, p, q);
      var m := Map(s, f);
      assert m[0] == f(s[0]) && m[1..] == Map(s[1..], f);
      if p(s[0]) {
        assert Filter(s, p) == [s[0]] + Filter(s[1..], p);
        assert Map([s[0]] + Filter(s[1..], p), f)[1..] == Map(Filter(s[1..], p), f);
      }
    }
  }

  /** Number of elements of s satisfying p. */
  function CountWhere<T>(s: seq<T>, p: T -> bool): nat
  {
    |Filter(s, p)|
  }

  lemma {:induction false} CountConcat<T>(a: seq<T>, b: seq<T>, p: T -> bool)
    ensures CountWhere(a + b, p) == CountWhere(a, p) + CountWhere(b, p)
  {
    FilterConcat(a, b, p);
  }

  lemma RemoveAtMultiset<T>(b: seq<T>, k: nat)
    requires k < |b|
    ensures multiset(b[..k] + b[k + 1..]) == multiset(b) - multiset{b[k]}
  {
    assert b == b[..k] + [b[k]] + b[k + 1..];
  }

  lemma RemoveAtCount<T>(b: seq<T>, k: nat, p: T -> bool)
    requires k < |b|
    ensures CountWhere(b, p) == CountWhere([b[k]], p) + CountWhere(b[..k] + b[k + 1..], p)
  {
    assert b == b[..k] + ([b[k]] + b[k + 1..]);
    CountConcat(b[..k], [b[k]] + b[k + 1..], p);
    CountConcat([b[k]], b[k + 1..], p);
    CountConcat(b[..k], b[k + 1..], p);
  }

  /** Reordering a sequence does not change how many of its elements pass a test. */
  lemma {:induction false} CountPermutation<T>(a: seq<T>, b: seq<T>, p: T -> bool)
    requires multiset(a) == multiset(b)
    ensures CountWhere(a, p) == CountWhere(b, p)
  {
    if a == [] {
      assert |b| == |multiset(b)| == 0;
    } else {
      var x := a[0];
      var k := IndexOf(b, x);
      var rest := b[..k] + b[k + 1..];
      RemoveFirstMultiset(a, b, k);
      CountPermutation(a[1..], rest, p);
      RemoveAtCount(b, k, p);
      RemoveAtCount(a, 0, p);
      assert a[..0] + a[1..] == a[1..];
    }
  }

  /** A position at which a value counted by the multiset of b occurs. */
  lemma IndexOf<T>(b: seq<T>, x: T) returns (k: nat)
    requires x in multiset(b)
    ensures k < |b| && b[k] == x
  {
    assert x in b;
    k :| 0 <= k < |b| && b[k] == x;
  }

  lemma RemoveFirstMultiset<T>(a: seq<T>, b: seq<T>, k: nat)
    requires a != [] && k < |b| && b[k] == a[0]
    requires multiset(a) == multiset(b)
    ensures multiset(a[1..]) == multiset(b[..k] + b[k + 1..])
  {
    RemoveAtMultiset(b, k);
    assert a == [a[0]] + a[1..];
    assert multiset(a) == multiset{a[0]} + multiset(a[1..]);
  }

  /** The first n elements (`.limit(n)`). */
  function Take<T>(s: seq<T>, n: nat): (r: seq<T>)
    ensures |r| <= n && |r| <= |s|
    ensures |s| <= n ==> r == s
    ensures forall i :: 0 <= i < |r| ==> r[i] == s[i]
  {
    if |s| <= n then s else s[..n]
  }

  // ---------------------------------------------------------------------------------------
  // Splitting, joining, trimming and replacing, as JavaScript's String methods do them.

  function Occurrences(s: string, c: char): nat
  {
    if s == [] then 0 else (if s[0] == c then 1 else 0) + Occurrences(s[1..], c)
  }

  /** `s.split(sep)` with a one-character separator. */
  function Split(s: string, sep: char): (parts: seq<string>)
    ensures |parts| == Occurrences(s, sep) + 1
    ensures forall i :: 0 <= i < |parts| ==> sep !in parts[i]
  {
    if s == [] then [""]
    else
      var rest := Split(s[1..], sep);
      if s[0] == sep then [""] + rest
      else [[s[0]] + rest[0]] + rest[1..]
  }

  /** `parts.join(sep)` */
  function Join(parts: seq<string>, sep: char): string
  {
    if parts == [] then ""
    else if |parts| == 1 then parts[0]
    else parts[0] + [sep] + Join(parts[1..], sep)
  }

  lemma {:induction false} JoinSplit(s: string, sep: char)
    ensures Join(Split(s, sep), sep) == s
  {
    if s != [] {
      var rest := Split(s[1..], sep);
      JoinSplit(s[1..], sep);
      if s[0] == sep {
        assert Split(s, sep)[1..] == rest;
        assert s == [s[0]] + s[1..];
      } else {
        var parts := Split(s, sep);
        if |rest| == 1 {
          assert s == [s[0]] + rest[0];
        } else {
          assert parts[1..] == rest[1..];
          assert Join(rest, sep) == rest[0] + [sep] + Join(rest[1..], sep);
          assert s == [s[0]] + s[1..];
        }
      }
    }
  }

  lemma {:induction false} OccurrencesZero(s: string, c: char)
    ensures Occurrences(s, c) == 0 <==> c !in s
  {
    if s != [] {
      OccurrencesZero(s[1..], c);
      assert s == [s[0]] + s[1..];
    }
  }

  /** The last piece of a split is the text after the last separator, or the whole string
      when there is none. */
  lemma {:induction false} SplitLast(s: string, sep: char)
    ensures var parts := Split(s, sep);
            var p := parts[|parts| - 1];
            && |p| <= |s| && p == s[|s| - |p|..]
            && (|parts| == 1 ==> p == s)
            && (|parts| > 1 ==> |p| < |s| && s[|s| - |p| - 1] == sep)
  {
    if s != [] {
      var rest := Split(s[1..], sep);
      var q := rest[|rest| - 1];
      SplitLast(s[1..], sep);
      var parts := Split(s, sep);
      assert s[1..][|s| - 1 - |q|..] == s[|s| - |q|..];
      if s[0] == sep {
        assert parts == [""] + rest;
        assert parts[|parts| - 1] == q;
        if |q| < |s| - 1 {
          assert s[|s| - |q| - 1] == s[1..][|s| - 1 - |q| - 1];
        }
      } else if |rest| == 1 {
        assert parts == [[s[0]] + rest[0]];
        assert s == [s[0]] + s[1..];
      } else {
        assert parts == [[s[0]] + rest[0]] + rest[1..];
        assert parts[|parts| - 1] == q;
        assert s[|s| - |q| - 1] == s[1..][|s| - 1 - |q| - 1];
      }
    }
  }

  lemma {:induction false} SplitNoSep(a: string, sep: char)
    requires sep !in a
    ensures Split(a, sep) == [a]
  {
    if a != [] {
      SplitNoSep(a[1..], sep);
      assert a == [a[0]] + a[1..];
    }
  }

  lemma {:induction false} SplitConcat(a: string, b: string, sep: char)
    requires sep !in a
    ensures Split(a + [sep] + b, sep) == [a] + Split(b, sep)
  {
    var s := a + [sep] + b;
    if a == [] {
      assert s[1..] == b;
    } else {
      assert s[1..] == a[1..] + [sep] + b;
      SplitConcat(a[1..], b, sep);
      assert a == [a[0]] + a[1..];
    }
  }

  /** Splitting what was joined gives the parts back, when no part holds the separator. */
  lemma {:induction false} SplitJoin(parts: seq<string>, sep: char)
    requires parts != []
    requires forall i :: 0 <= i < |parts| ==> sep !in parts[i]
    ensures Split(Join(parts, sep), sep) == parts
  {
    if |parts| == 1 {
      SplitNoSep(parts[0], sep);
    } else {
      SplitJoin(parts[1..], sep);
      SplitConcat(parts[0], Join(parts[1..], sep), sep);
      assert parts == [parts[0]] + parts[1..];
    }
  }

  /** Characters that `String.prototype.trim` removes (white space and line terminators). */
  predicate IsSpace(c: char)
  {
    || c == ' ' || c == '\t' || c == '\n' || c == '\r' || c == '\U{000B}' || c == '\U{000C}'
    || c == '\U{00A0}' || c == '\U{1680}' || ('\U{2000}' <= c <= '\U{200A}')
    || c == '\U{2028}' || c == '\U{2029}' || c == '\U{202F}' || c == '\U{205F}'
    || c == '\U{3000}' || c == '\U{FEFF}'
  }

  function TrimStart(s: string): (r: string)
    ensures |r| <= |s| && r == s[|s| - |r|..]
    ensures r == [] || !IsSpace(r[0])
  {
    if s != [] && IsSpace(s[0]) then TrimStart(s[1..]) else s
  }

  function TrimEnd(s: string): (r: string)
    ensures |r| <= |s| && r == s[..|r|]
    ensures r == [] || !IsSpace(r[|r| - 1])
  {
    if s != [] && IsSpace(s[|s| - 1]) then TrimEnd(s[..|s| - 1]) else s
  }

  /** `s.trim()` */
  function Trim(s: string): (r: string)
    ensures r == [] || (!IsSpace(r[0]) && !IsSpace(r[|r| - 1]))
    ensures forall c :: c in r ==> c in s
    ensures |r| <= |s|
  {
    var t := TrimStart(s);
    var r := TrimEnd(t);
    assert r == [] || r[0] == t[0];
    r
  }

  /** A string without surrounding white space is its own trim. */
  lemma TrimClean(s: string)
    requires s == [] || (!IsSpace(s[0]) && !IsSpace(s[|s| - 1]))
    ensures Trim(s) == s
  {
  }

  /** `s.replace(from, to)` with a one-character string pattern: only the first
      occurrence is replaced. */
  function ReplaceFirst(s: string, from: char, to: char): (r: string)
    ensures |r| == |s|
    ensures from !in s ==> r == s
  {
    if s == [] then []
    else if s[0] == from then [to] + s[1..]
    else [s[0]] + ReplaceFirst(s[1..], from, to)
  }

  lemma {:induction false} ReplaceFirstAt(s: string, from: char, to: char, k: nat)
    requires k < |s| && s[k] == from && from !in s[..k]
    ensures ReplaceFirst(s, from, to) == s[..k] + [to] + s[k + 1..]
  {
    if k > 0 {
      assert s[0] in s[..k];
      assert s[1..][..k - 1] == s[1..k];
      assert from !in s[1..][..k - 1];
      ReplaceFirstAt(s[1..], from, to, k - 1);
      assert s[..k] == [s[0]] + s[1..][..k - 1];
      assert s[1..][k..] == s[k + 1..];
    }
  }

  /** ASCII case folding, the part of `toLowerCase` the model keeps. */
  function Lower(s: string): (r: string)
    ensures |r| == |s|
    ensures forall i :: 0 <= i < |r| ==> !('A' <= r[i] <= 'Z')
  {
    seq(|s|, i requires 0 <= i < |s| => if 'A' <= s[i] <= 'Z' then (s[i] as int + 32) as char else s[i])
  }

  lemma LowerIdempotent(s: string)
    ensures Lower(Lower(s)) == Lower(s)
  {
  }
}
