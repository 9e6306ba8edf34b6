/** Shared vocabulary of the model: optional values, identifiers and instants. */
module Common {

  /** Swift's `Optional`: `nil` or a wrapped value. */
  datatype Option<+T> = None | Some(value: T) {

    /** The `??` operator: the wrapped value, or `fallback` for `nil`. */
    function OrElse(fallback: T): T {
      match this
      case Some(v) => v
      case None => fallback
    }
  }

  /** A `UUID`. Generation is left to the caller, who passes an id not yet in use. */
  type Uuid = nat

  /**
   * A Foundation `Date`, split into the calendar day it falls on (in the user's
   * calendar) and the second within that day. `Calendar.current.compare(_:to:toGranularity: .day)`
   * answers `.orderedSame` exactly when the `day` components agree.
   */
  datatype Instant = Instant(day: int, second: nat)

  predicate SameDay(a: Instant, b: Instant) {
    a.day == b.day
  }
}

/** Swift `Array` operations used by the app, over Dafny sequences. */
module Seqs {
  import opened Common

  /** `firstIndex(where:)`: the position of the first element satisfying `p`. */
  function FirstIndexWhere<T>(s: seq<T>, p: T -> bool): (r: Option<nat>)
    ensures r.Some? ==> r.value < |s| && p(s[r.value])
    ensures r.Some? ==> forall j :: 0 <= j < r.value ==> !p(s[j])
    ensures r.None? <==> forall j :: 0 <= j < |s| ==> !p(s[j])
  {
    if |s| == 0 then None
    else if p(s[0]) then Some(0)
    else
      match FirstIndexWhere(s[1..], p)
      case None => None
      case Some(i) => Some(i + 1)
  }

  /** `firstIndex(of:)`. */
  function FirstIndexOf<T(==)>(s: seq<T>, x: T): (r: Option<nat>)
    ensures r.Some? ==> r.value < |s| && s[r.value] == x && x !in s[..r.value]
    ensures r.None? <==> x !in s
  {
    var r := FirstIndexWhere(s, y => y == x);
    if r.Some? then
      assert forall j :: 0 <= j < r.value ==> s[..r.value][j] == s[j];
      r
    else r
  }

  /** `first(where:)`. */
  function FirstWhere<T>(s: seq<T>, p: T -> bool): (r: Option<T>)
    ensures r.Some? ==> r.value in s && p(r.value)
    ensures r.None? <==> forall j :: 0 <= j < |s| ==> !p(s[j])
  {
    match FirstIndexWhere(s, p)
    case None => None
    case Some(i) => Some(s[i])
  }

  /** `remove(at:)`: drops position `i`, shifting later elements down by one. */
  function RemoveAt<T>(s: seq<T>, i: nat): (r: seq<T>)
    requires i < |s|
    ensures |r| == |s| - 1
    ensures forall j :: 0 <= j < i ==> r[j] == s[j]
    ensures forall j :: i <= j < |r| ==> r[j] == s[j + 1]
    ensures multiset(r) == multiset(s) - multiset{s[i]}
  {
    assert s == s[..i] + [s[i]] + s[i + 1..];
    s[..i] + s[i + 1..]
  }

  /**
   * Removes the first occurrence of `x`, if any (the weekday and category list
   * idiom): the elements before it and after it keep their order.
   */
  function RemoveFirst<T(==)>(s: seq<T>, x: T): (r: seq<T>)
    ensures x !in s ==> r == s
    ensures x in s ==> |r| == |s| - 1 && multiset(r) == multiset(s) - multiset{x}
    ensures x in s ==> FirstIndexOf(s, x).Some? && r == RemoveAt(s, FirstIndexOf(s, x).value)
  {
    match FirstIndexOf(s, x)
    case None => s
    case Some(i) => RemoveAt(s, i)
  }

  /** `filter`: keeps, in order, the elements satisfying `p`. */
  function Filter<T(!new)>(s: seq<T>, p: T -> bool): (r: seq<T>)
    ensures |r| <= |s|
    ensures forall x :: x in r <==> x in s && p(x)
    ensures multiset(r) <= multiset(s)
  {
    if |s| == 0 then []
    else
      assert s == [s[0]] + s[1..];
      if p(s[0]) then [s[0]] + Filter(s[1..], p) else Filter(s[1..], p)
  }

  /** `filter` keeps every copy of a kept element and no copy of a dropped one. */
  lemma {:induction false} FilterCount<T(!new)>(s: seq<T>, p: T -> bool)
    ensures forall x :: multiset(Filter(s, p))[x] == if p(x) then multiset(s)[x] else 0
    decreases |s|
  {
    if |s| > 0 {
      FilterCount(s[1..], p);
      assert s == [s[0]] + s[1..];
    }
  }

  /** `compactMap`: applies `f` in order and drops the `nil` results. */
  function CompactMap<T(!new), U(!new)>(s: seq<T>, f: T -> Option<U>): (r: seq<U>)
    ensures |r| <= |s|
    ensures forall u :: u in r <==> exists x :: x in s && f(x) == Some(u)
  {
    if |s| == 0 then []
    else
      var rest := CompactMap(s[1..], f);
      assert forall x :: x in s <==> x == s[0] || x in s[1..];
      match f(s[0])
      case Some(u) => [u] + rest
      case None => rest
  }

  /** No two elements share a key (object identities are unique). */
  predicate DistinctBy<T>(s: seq<T>, key: T -> int) {
    forall i, j :: 0 <= i < j < |s| ==> key(s[i]) != key(s[j])
  }

  /** Every key is below `bound` (identities not yet handed out). */
  predicate AllBelow<T>(s: seq<T>, key: T -> int, bound: int) {
    forall i :: 0 <= i < |s| ==> key(s[i]) < bound
  }

  /** The tail of a sequence with distinct keys has distinct keys, none equal to the head's. */
  lemma {:induction false} DistinctTail<T>(s: seq<T>, key: T -> int)
    requires |s| > 0 && DistinctBy(s, key)
    ensures DistinctBy(s[1..], key)
    ensures forall y :: y in s[1..] ==> key(y) != key(s[0])
  {
    forall i, j | 0 <= i < j < |s[1..]|
      ensures key(s[1..][i]) != key(s[1..][j])
    {
      assert s[1..][i] == s[i + 1] && s[1..][j] == s[j + 1];
    }
    forall y | y in s[1..]
      ensures key(y) != key(s[0])
    {
      var k :| 0 <= k < |s[1..]| && s[1..][k] == y;
      assert s[k + 1] == y;
    }
  }

  /** Putting an element with a new key in front keeps keys distinct. */
  lemma {:induction false} DistinctCons<T>(x: T, t: seq<T>, key: T -> int)
    requires DistinctBy(t, key)
    requires forall y :: y in t ==> key(y) != key(x)
    ensures DistinctBy([x] + t, key)
  {
    var r := [x] + t;
    forall i, j | 0 <= i < j < |r|
      ensures key(r[i]) != key(r[j])
    {
      assert r[j] == t[j - 1] && t[j - 1] in t;
      if i > 0 {
        assert r[i] == t[i - 1];
      }
    }
  }

  lemma {:induction false} FilterDistinct<T(!new)>(s: seq<T>, p: T -> bool, key: T -> int)
    requires DistinctBy(s, key)
    ensures DistinctBy(Filter(s, p), key)
    decreases |s|
  {
    if |s| > 0 {
      DistinctTail(s, key);
      FilterDistinct(s[1..], p, key);
      if p(s[0]) {
        DistinctCons(s[0], Filter(s[1..], p), key);
      }
    }
  }

  lemma {:induction false} FilterBelow<T(!new)>(s: seq<T>, p: T -> bool, key: T -> int, bound: int)
    requires AllBelow(s, key, bound)
    ensures AllBelow(Filter(s, p), key, bound)
  {
    var r := Filter(s, p);
    forall i | 0 <= i < |r|
      ensures key(r[i]) < bound
    {
      assert r[i] in s;
    }
  }

  /** A filter every element passes keeps the sequence. */
  lemma {:induction false} FilterAll<T(!new)>(s: seq<T>, p: T -> bool)
    requires forall i :: 0 <= i < |s| ==> p(s[i])
    ensures Filter(s, p) == s
    decreases |s|
  {
    if |s| > 0 {
      assert forall i :: 0 <= i < |s[1..]| ==> s[1..][i] == s[i + 1];
      FilterAll(s[1..], p);
      assert s == [s[0]] + s[1..];
    }
  }

  /** A filter no element passes yields nothing. */
  lemma {:induction false} FilterNone<T(!new)>(s: seq<T>, p: T -> bool)
    requires forall i :: 0 <= i < |s| ==> !p(s[i])
    ensures Filter(s, p) == []
    decreases |s|
  {
    if |s| > 0 {
      assert forall i :: 0 <= i < |s[1..]| ==> s[1..][i] == s[i + 1];
      FilterNone(s[1..], p);
    }
  }

  /** One step of `Filter`: the head is kept or dropped, the tail filtered. */
  lemma {:induction false} FilterStep<T(!new)>(s: seq<T>, p: T -> bool)
    requires |s| > 0
    ensures Filter(s, p) == (if p(s[0]) then [s[0]] else []) + Filter(s[1..], p)
  {
  }

  lemma {:induction false} ConsSlices<T>(s: seq<T>, i: nat)
    requires 0 < i < |s|
    ensures [s[0]] + (s[1..][..i - 1] + s[1..][i..]) == s[..i] + s[i + 1..]
  {
    assert s[1..][..i - 1] == s[1..i] && s[1..][i..] == s[i + 1..];
    assert [s[0]] + s[1..i] == s[..i];
  }

  /** A filter only position `i` fails removes exactly that position. */
  lemma {:induction false} FilterDropsOne<T(!new)>(s: seq<T>, p: T -> bool, i: nat)
    requires i < |s| && !p(s[i])
    requires forall j :: 0 <= j < |s| && j != i ==> p(s[j])
    ensures Filter(s, p) == s[..i] + s[i + 1..]
    decreases |s|
  {
    var tail := s[1..];
    FilterStep(s, p);
    if i == 0 {
      forall j | 0 <= j < |tail|
        ensures p(tail[j])
      {
        assert tail[j] == s[j + 1];
      }
      FilterAll(tail, p);
    } else {
      forall j | 0 <= j < |tail| && j != i - 1
        ensures p(tail[j])
      {
        assert tail[j] == s[j + 1];
      }
      FilterDropsOne(tail, p, i - 1);
      ConsSlices(s, i);
    }
  }

  /** Replacing elements by ones with the same keys keeps keys unique and bounded. */
  lemma {:induction false} SameKeys<T>(s: seq<T>, t: seq<T>, key: T -> int, bound: int)
    requires |s| == |t| && forall i :: 0 <= i < |s| ==> key(s[i]) == key(t[i])
    ensures DistinctBy(s, key) ==> DistinctBy(t, key)
    ensures AllBelow(s, key, bound) ==> AllBelow(t, key, bound)
  {
  }

  lemma {:induction false} RemoveAtKeys<T>(s: seq<T>, i: nat, key: T -> int, bound: int)
    requires i < |s| && DistinctBy(s, key) && AllBelow(s, key, bound)
    ensures DistinctBy(RemoveAt(s, i), key) && AllBelow(RemoveAt(s, i), key, bound)
  {
    var r := RemoveAt(s, i);
    forall a, b | 0 <= a < b < |r|
      ensures key(r[a]) != key(r[b])
    {
      var a' := if a < i then a else a + 1;
      var b' := if b < i then b else b + 1;
      assert r[a] == s[a'] && r[b] == s[b'];
    }
  }

  lemma {:induction false} AppendKeys<T>(s: seq<T>, x: T, key: T -> int, bound: int)
    requires DistinctBy(s, key) && AllBelow(s, key, bound) && key(x) == bound
    ensures DistinctBy(s + [x], key) && AllBelow(s + [x], key, bound + 1)
  {
  }
}

/**
 * The order an `NSSortDescriptor(key:ascending: true)` imposes, reduced to one
 * lexicographic order on integer sequences, and a sort that produces it.
 */
module Ordering {
  import opened Common
  import opened Seqs

  /** Lexicographic order; a proper prefix sorts first. */
  predicate LexLe(a: seq<int>, b: seq<int>)
    decreases |a|
  {
    |a| == 0 || (|b| > 0 && (a[0] < b[0] || (a[0] == b[0] && LexLe(a[1..], b[1..]))))
  }

  lemma {:induction false} LexLeReflexive(a: seq<int>)
    ensures LexLe(a, a)
    decreases |a|
  {
    if |a| > 0 {
      LexLeReflexive(a[1..]);
    }
  }

  lemma {:induction false} LexLeTotal(a: seq<int>, b: seq<int>)
    ensures LexLe(a, b) || LexLe(b, a)
    decreases |a|
  {
    if |a| > 0 && |b| > 0 && a[0] == b[0] {
      LexLeTotal(a[1..], b[1..]);
    }
  }

  lemma {:induction false} LexLeTransitive(a: seq<int>, b: seq<int>, c: seq<int>)
    requires LexLe(a, b) && LexLe(b, c)
    ensures LexLe(a, c)
    decreases |a|
  {
    if |a| > 0 && a[0] == b[0] && b[0] == c[0] {
      LexLeTransitive(a[1..], b[1..], c[1..]);
    }
  }

  lemma {:induction false} LexLeAntisymmetric(a: seq<int>, b: seq<int>)
    requires LexLe(a, b) && LexLe(b, a)
    ensures a == b
    decreases |a|
  {
    if |a| > 0 {
      LexLeAntisymmetric(a[1..], b[1..]);
      assert a == [a[0]] + a[1..] && b == [b[0]] + b[1..];
    }
  }

  /** The sort key of a string: its characters' code points, compared literally. */
  function StringKey(s: string): (k: seq<int>)
    ensures |k| == |s|
    ensures forall i :: 0 <= i < |s| ==> k[i] == s[i] as int
  {
    seq(|s|, i requires 0 <= i < |s| => s[i] as int)
  }

  /** String order by code point (`compare(_:)` without locale rules). */
  predicate StrLe(a: string, b: string) {
    LexLe(StringKey(a), StringKey(b))
  }

  /** Two strings with the same key are the same string, so the key order is an order on strings. */
  lemma {:induction false} StringKeyInjective(a: string, b: string)
    requires StringKey(a) == StringKey(b)
    ensures a == b
  {
    assert |a| == |b|;
    forall i | 0 <= i < |a|
      ensures a[i] == b[i]
    {
      assert StringKey(a)[i] == StringKey(b)[i];
    }
  }

  /** Every pair of positions is in key order. */
  predicate SortedBy<T>(s: seq<T>, key: T -> seq<int>) {
    forall i, j :: 0 <= i < j < |s| ==> LexLe(key(s[i]), key(s[j]))
  }

  lemma {:induction false} PrependSorted<T>(x: T, t: seq<T>, key: T -> seq<int>)
    requires SortedBy(t, key)
    requires forall e :: e in t ==> LexLe(key(x), key(e))
    ensures SortedBy([x] + t, key)
  {
    var r := [x] + t;
    forall i, j | 0 <= i < j < |r|
      ensures LexLe(key(r[i]), key(r[j]))
    {
      if i == 0 {
        assert r[j] == t[j - 1] && t[j - 1] in t;
      } else {
        assert r[i] == t[i - 1] && r[j] == t[j - 1];
      }
    }
  }

  lemma {:induction false} SortedTail<T>(s: seq<T>, key: T -> seq<int>)
    requires |s| > 0 && SortedBy(s, key)
    ensures SortedBy(s[1..], key)
  {
    forall i, j | 0 <= i < j < |s[1..]|
      ensures LexLe(key(s[1..][i]), key(s[1..][j]))
    {
      assert s[1..][i] == s[i + 1] && s[1..][j] == s[j + 1];
    }
  }

  /** Inserts `x` before the first element it does not sort after. */
  function InsertBy<T(!new)>(x: T, s: seq<T>, key: T -> seq<int>): (r: seq<T>)
    requires SortedBy(s, key)
    ensures |r| == |s| + 1
    ensures multiset(r) == multiset(s) + multiset{x}
    ensures SortedBy(r, key)
  {
    if |s| == 0 then [x]
    else if LexLe(key(x), key(s[0])) then
      assert forall e :: e in s ==> LexLe(key(x), key(e)) by {
        forall e | e in s
          ensures LexLe(key(x), key(e))
        {
          var j :| 0 <= j < |s| && s[j] == e;
          if j > 0 {
            LexLeTransitive(key(x), key(s[0]), key(e));
          }
        }
      }
      PrependSorted(x, s, key);
      assert s == [s[0]] + s[1..];
      [x] + s
    else
      SortedTail(s, key);
      var t := InsertBy(x, s[1..], key);
      assert forall e :: e in t ==> LexLe(key(s[0]), key(e)) by {
        LexLeTotal(key(x), key(s[0]));
        forall e | e in t
          ensures LexLe(key(s[0]), key(e))
        {
          assert e in multiset(t);
          if e != x {
            assert e in multiset(s[1..]);
            var j :| 0 <= j < |s[1..]| && s[1..][j] == e;
            assert s[j + 1] == e;
          }
        }
      }
      PrependSorted(s[0], t, key);
      assert s == [s[0]] + s[1..];
      [s[0]] + t
  }

  /** Insertion sort: the order a fetch with one ascending sort descriptor returns. */
  function SortBy<T(!new)>(s: seq<T>, key: T -> seq<int>): (r: seq<T>)
    ensures |r| == |s|
    ensures multiset(r) == multiset(s)
    ensures SortedBy(r, key)
  {
    if |s| == 0 then []
    else
      assert s == [s[0]] + s[1..];
      InsertBy(s[0], SortBy(s[1..], key), key)
  }

  /** A filtered sorted list is still sorted: `filter` keeps the fetch order. */
  lemma {:induction false} FilterSorted<T(!new)>(s: seq<T>, p: T -> bool, key: T -> seq<int>)
    requires SortedBy(s, key)
    ensures SortedBy(Filter(s, p), key)
    decreases |s|
  {
    if |s| > 0 {
      SortedTail(s, key);
      FilterSorted(s[1..], p, key);
      if p(s[0]) {
        forall e | e in Filter(s[1..], p)
          ensures LexLe(key(s[0]), key(e))
        {
          var j :| 0 <= j < |s[1..]| && s[1..][j] == e;
          assert s[j + 1] == e;
        }
        PrependSorted(s[0], Filter(s[1..], p), key);
      }
    }
  }

  /**
   * `compactMap` keeps the fetch order too, when every kept value sorts by the
   * key of the element it came from.
   */
  lemma {:induction false} CompactMapSorted<T(!new), U(!new)>(s: seq<T>, f: T -> Option<U>, key: T -> seq<int>, key': U -> seq<int>)
    requires SortedBy(s, key)
    requires forall x :: f(x).Some? ==> key'(f(x).value) == key(x)
    ensures SortedBy(CompactMap(s, f), key')
    decreases |s|
  {
    if |s| > 0 {
      SortedTail(s, key);
      CompactMapSorted(s[1..], f, key, key');
      var rest := CompactMap(s[1..], f);
      if f(s[0]).Some? {
        forall u | u in rest
          ensures LexLe(key'(f(s[0]).value), key'(u))
        {
          var x :| x in s[1..] && f(x) == Some(u);
          var j :| 0 <= j < |s[1..]| && s[1..][j] == x;
          assert s[j + 1] == x;
        }
        PrependSorted(f(s[0]).value, rest, key');
      }
    }
  }
}
