/** Values and sequence operations shared by the client screens and the server model:
    optional values, the way the JavaScript code reads numeric fields, and the
    array methods the code relies on (filter, reduce-to-sum, reverse, Set
    de-duplication, a stable sort by a numeric key). */
module Common {

  datatype Option<T> = None | Some(value: T)

  /** A field the JavaScript code reads as a number. `Absent` is a missing, null or
      empty value (`Number(x) || 0` gives 0), `Num(n)` a number, `Digits(n)` a
      non-empty numeric string such as a MySQL DECIMAL column or an `<input>` value:
      it converts to `n` but is truthy even when `n` is 0. */
  datatype Numeric = Absent | Num(n: int) | Digits(n: int)

  /** JavaScript truthiness of a numeric field. */
  predicate Truthy(v: Numeric) {
    match v
    case Absent => false
    case Num(n) => n != 0
    case Digits(_) => true
  }

  /** `Number(v) || 0` */
  function NumberOr0(v: Numeric): int {
    match v
    case Absent => 0
    case Num(n) => n
    case Digits(n) => n
  }

  /** JavaScript truthiness of an optional string (`undefined`, `null` and "" are falsy). */
  predicate Present(s: Option<string>) {
    s.Some? && s.value != ""
  }

  // ---------------------------------------------------------------------------
  // Array.prototype.filter

  /** `r` is obtained from `s` by deleting elements, keeping the order of the rest. */
  predicate IsSubseq<T(==)>(r: seq<T>, s: seq<T>)
    decreases |s|
  {
    if r == [] then true
    else if s == [] then false
    else if r[0] == s[0] then IsSubseq(r[1..], s[1..])
    else IsSubseq(r, s[1..])
  }

  function Filter<T(!new)>(s: seq<T>, p: T -> bool): (r: seq<T>)
    ensures |r| <= |s|
    ensures forall x :: x in r <==> x in s && p(x)
    ensures forall x :: multiset(r)[x] == if p(x) then multiset(s)[x] else 0
    ensures IsSubseq(r, s)
  {
    if s == [] then []
    else
      var rest := Filter(s[1..], p);
      assert s == [s[0]] + s[1..];
      if p(s[0]) then [s[0]] + rest else rest
  }

  lemma {:induction false} FilterAll<T(!new)>(s: seq<T>, p: T -> bool)
    requires forall x :: x in s ==> p(x)
    ensures Filter(s, p) == s
  {
    if s != [] {
      FilterAll(s[1..], p);
    }
  }

  /** Filters that agree on every element give the same result. */
  lemma {:induction false} FilterCongruent<T(!new)>(s: seq<T>, p: T -> bool, q: T -> bool)
    requires forall x :: x in s ==> p(x) == q(x)
    ensures Filter(s, p) == Filter(s, q)
  {
    if s != [] {
      FilterCongruent(s[1..], p, q);
    }
  }

  lemma {:induction false} FilterCompose<T(!new)>(s: seq<T>, p: T -> bool, q: T -> bool, both: T -> bool)
    requires forall x :: both(x) == (p(x) && q(x))
    ensures Filter(Filter(s, p), q) == Filter(s, both)
  {
    if s != [] {
      FilterCompose(s[1..], p, q, both);
    }
  }

  // ---------------------------------------------------------------------------
  // Array.prototype.reduce((sum, x) => sum + f(x), 0)

  function SumOf<T>(s: seq<T>, f: T -> int): int {
    if s == [] then 0 else f(s[0]) + SumOf(s[1..], f)
  }

  lemma {:induction false} SumConcat<T>(a: seq<T>, b: seq<T>, f: T -> int)
    ensures SumOf(a + b, f) == SumOf(a, f) + SumOf(b, f)
  {
    if a == [] {
      assert a + b == b;
    } else {
      assert (a + b)[0] == a[0];
      assert (a + b)[1..] == a[1..] + b;
      SumConcat(a[1..], b, f);
    }
  }

  /** Appending one element adds its value to the running sum. */
  lemma SumAppend<T>(s: seq<T>, x: T, f: T -> int)
    ensures SumOf(s + [x], f) == SumOf(s, f) + f(x)
  {
    SumConcat(s, [x], f);
  }

  /** The sum over a list splits into the sum over the kept rows and over the rest. */
  lemma {:induction false} SumFilterSplit<T(!new)>(s: seq<T>, f: T -> int, p: T -> bool)
    ensures SumOf(s, f) == SumOf(Filter(s, p), f) + SumOf(Filter(s, x => !p(x)), f)
  {
    if s != [] {
      SumFilterSplit(s[1..], f, p);
    }
  }

  lemma {:induction false} SumZero<T>(s: seq<T>, f: T -> int)
    requires forall x :: x in s ==> f(x) == 0
    ensures SumOf(s, f) == 0
  {
    if s != [] {
      SumZero(s[1..], f);
    }
  }

  lemma {:induction false} SumNonNegative<T>(s: seq<T>, f: T -> int)
    requires forall x :: x in s ==> f(x) >= 0
    ensures SumOf(s, f) >= 0
  {
    if s != [] {
      SumNonNegative(s[1..], f);
    }
  }

  // ---------------------------------------------------------------------------
  // Array.prototype.reverse

  function Reverse<T>(s: seq<T>): (r: seq<T>)
    ensures |r| == |s|
    ensures forall i :: 0 <= i < |s| ==> r[i] == s[|s| - 1 - i]
  {
    if s == [] then [] else Reverse(s[1..]) + [s[0]]
  }

  lemma ReverseInvolutive<T>(s: seq<T>)
    ensures Reverse(Reverse(s)) == s
  {
    var rr := Reverse(Reverse(s));
    assert |rr| == |s|;
    forall i | 0 <= i < |s| ensures rr[i] == s[i] {
      assert rr[i] == Reverse(s)[|s| - 1 - i];
    }
  }

  // ---------------------------------------------------------------------------
  // [...new Set(s)]: the distinct values in order of first occurrence

  predicate NoDups<T(==)>(s: seq<T>) {
    forall i, j :: 0 <= i < j < |s| ==> s[i] != s[j]
  }

  function Distinct<T(==,!new)>(s: seq<T>): (r: seq<T>)
    ensures NoDups(r)
    ensures forall x :: x in r <==> x in s
    ensures |r| <= |s|
  {
    if s == [] then []
    else
      var d := Distinct(s[..|s| - 1]);
      var x := s[|s| - 1];
      assert s == s[..|s| - 1] + [x];
      if x in d then d else d + [x]
  }

  /** The first element of a non-empty list always comes first in its Set order. */
  lemma {:induction false} DistinctKeepsFirst<T(!new)>(s: seq<T>)
    requires s != []
    ensures Distinct(s) != [] && Distinct(s)[0] == s[0]
  {
    if |s| > 1 {
      DistinctKeepsFirst(s[..|s| - 1]);
    }
  }

  lemma {:induction false} SubseqExtend<T>(r: seq<T>, s: seq<T>, x: T)
    requires IsSubseq(r, s)
    ensures IsSubseq(r, s + [x]) && IsSubseq(r + [x], s + [x])
    decreases |s|
  {
    if s == [] {
      assert r == [];
      assert [x][1..] == [];
    } else {
      assert (s + [x])[0] == s[0] && (s + [x])[1..] == s[1..] + [x];
      if r == [] {
        SubseqExtend([], s[1..], x);
        assert [] + [x] == [x];
      } else if r[0] == s[0] {
        SubseqExtend(r[1..], s[1..], x);
        assert (r + [x])[0] == r[0] && (r + [x])[1..] == r[1..] + [x];
      } else {
        SubseqExtend(r, s[1..], x);
        assert (r + [x])[0] == r[0];
      }
    }
  }

  lemma {:induction false} SubseqSkip<T>(x: seq<T>, t: seq<T>)
    requires t != [] && IsSubseq(x, t[1..])
    ensures IsSubseq(x, t)
    decreases |t|, |x|
  {
    if x != [] && x[0] == t[0] {
      SubseqDropHead(x, t[1..]);
    }
  }

  lemma {:induction false} SubseqDropHead<T>(x: seq<T>, t: seq<T>)
    requires x != [] && IsSubseq(x, t)
    ensures IsSubseq(x[1..], t)
    decreases |t|, |x|
  {
    if x[0] == t[0] {
      SubseqSkip(x[1..], t);
    } else {
      SubseqDropHead(x, t[1..]);
      SubseqSkip(x[1..], t);
    }
  }

  lemma {:induction false} SubseqTransitive<T>(a: seq<T>, b: seq<T>, c: seq<T>)
    requires IsSubseq(a, b) && IsSubseq(b, c)
    ensures IsSubseq(a, c)
    decreases |c|
  {
    if a != [] {
      if b[0] == c[0] {
        if a[0] == b[0] {
          SubseqTransitive(a[1..], b[1..], c[1..]);
        } else {
          SubseqTransitive(a, b[1..], c[1..]);
        }
      } else {
        SubseqTransitive(a, b, c[1..]);
        if a[0] == c[0] {
          SubseqDropHead(a, c[1..]);
        }
      }
    }
  }

  /** `new Set(s)` keeps the elements in the order of their first occurrence. */
  lemma {:induction false} DistinctInOrder<T(!new)>(s: seq<T>)
    ensures IsSubseq(Distinct(s), s)
  {
    if s != [] {
      var init, x := s[..|s| - 1], s[|s| - 1];
      DistinctInOrder(init);
      SubseqExtend(Distinct(init), init, x);
      assert s == init + [x];
    }
  }

  // ---------------------------------------------------------------------------
  // Array.prototype.sort with a numeric comparator (a stable sort)

  predicate SortedBy<T>(s: seq<T>, key: T -> int) {
    forall i, j :: 0 <= i < j < |s| ==> key(s[i]) <= key(s[j])
  }

  /** Inserts `x` after every element whose key is not greater than its own. */
  function InsertByKey<T>(x: T, s: seq<T>, key: T -> int): (r: seq<T>)
    requires SortedBy(s, key)
    ensures SortedBy(r, key)
    ensures multiset(r) == multiset(s) + multiset{x}
    ensures |r| == |s| + 1
  {
    if s == [] then [x]
    else if key(x) < key(s[0]) then [x] + s
    else
      var rest := InsertByKey(x, s[1..], key);
      InsertBehindHead(x, s, key, rest);
      [s[0]] + rest
  }

  lemma InsertBehindHead<T>(x: T, s: seq<T>, key: T -> int, rest: seq<T>)
    requires s != [] && SortedBy(s, key) && key(s[0]) <= key(x)
    requires SortedBy(rest, key) && multiset(rest) == multiset(s[1..]) + multiset{x}
    ensures SortedBy([s[0]] + rest, key)
    ensures multiset([s[0]] + rest) == multiset(s) + multiset{x}
  {
    assert s == [s[0]] + s[1..];
    forall j | 0 <= j < |rest| ensures key(s[0]) <= key(rest[j]) {
      var y := rest[j];
      assert y in multiset(rest);
      if y != x {
        assert y in multiset(s[1..]);
        var k :| 0 <= k < |s[1..]| && s[1..][k] == y;
        assert s[k + 1] == y;
      }
    }
    var r := [s[0]] + rest;
    forall i, j | 0 <= i < j < |r| ensures key(r[i]) <= key(r[j]) {
      if i > 0 {
        assert r[i] == rest[i - 1] && r[j] == rest[j - 1];
      }
    }
  }

  /** Stable ascending sort by `key`; a descending sort uses the negated key. */
  function SortByKey<T>(s: seq<T>, key: T -> int): (r: seq<T>)
    ensures SortedBy(r, key)
    ensures multiset(r) == multiset(s)
    ensures |r| == |s|
  {
    if s == [] then []
    else
      assert s == s[..|s| - 1] + [s[|s| - 1]];
      InsertByKey(s[|s| - 1], SortByKey(s[..|s| - 1], key), key)
  }
}
