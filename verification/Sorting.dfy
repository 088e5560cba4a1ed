/** Python's stable sort over an arbitrary total preorder, and the order of strings. */
module Sorting {

  /** `ahead(a, b)`: a may stand before b. */
  ghost predicate TotalPreorder<T(!new)>(ahead: (T, T) -> bool) {
    && (forall a, b :: ahead(a, b) || ahead(b, a))
    && (forall a, b, c :: ahead(a, b) && ahead(b, c) ==> ahead(a, c))
  }

  ghost predicate SortedBy<T>(s: seq<T>, ahead: (T, T) -> bool) {
    forall i, j :: 0 <= i < j < |s| ==> ahead(s[i], s[j])
  }

  /** Put x before the first element it may stand before. */
  function Insert<T>(x: T, s: seq<T>, ahead: (T, T) -> bool): seq<T> {
    if s == [] then [x]
    else if ahead(x, s[0]) then [x] + s
    else [s[0]] + Insert(x, s[1..], ahead)
  }

  function StableSort<T>(s: seq<T>, ahead: (T, T) -> bool): seq<T> {
    if s == [] then [] else Insert(s[0], StableSort(s[1..], ahead), ahead)
  }

  lemma {:induction false} InsertPermutes<T>(x: T, s: seq<T>, ahead: (T, T) -> bool)
    ensures multiset(Insert(x, s, ahead)) == multiset(s) + multiset{x}
  {
    if s != [] && !ahead(x, s[0]) {
      InsertPermutes(x, s[1..], ahead);
      assert s == [s[0]] + s[1..];
    }
  }

  lemma {:induction false} SortPermutes<T>(s: seq<T>, ahead: (T, T) -> bool)
    ensures multiset(StableSort(s, ahead)) == multiset(s)
    ensures |StableSort(s, ahead)| == |s|
  {
    if s != [] {
      SortPermutes(s[1..], ahead);
      InsertPermutes(s[0], StableSort(s[1..], ahead), ahead);
      assert s == [s[0]] + s[1..];
    }
    assert |multiset(StableSort(s, ahead))| == |StableSort(s, ahead)|;
    assert |multiset(s)| == |s|;
  }

  lemma SortKeepsElements<T>(s: seq<T>, ahead: (T, T) -> bool)
    ensures forall x :: x in StableSort(s, ahead) <==> x in s
  {
    SortPermutes(s, ahead);
    forall x ensures x in StableSort(s, ahead) <==> x in s {
      assert x in multiset(StableSort(s, ahead)) <==> x in multiset(s);
    }
  }

  lemma {:induction false} InsertSorts<T(!new)>(x: T, s: seq<T>, ahead: (T, T) -> bool)
    requires TotalPreorder(ahead) && SortedBy(s, ahead)
    ensures SortedBy(Insert(x, s, ahead), ahead)
  {
    if s != [] {
      if ahead(x, s[0]) {
        forall j | 0 <= j < |s| ensures ahead(x, s[j]) {
          assert j > 0 ==> ahead(s[0], s[j]);
        }
      } else {
        var rest := Insert(x, s[1..], ahead);
        InsertSorts(x, s[1..], ahead);
        InsertPermutes(x, s[1..], ahead);
        forall j | 0 <= j < |rest| ensures ahead(s[0], rest[j]) {
          assert rest[j] in multiset(rest);
          if rest[j] != x {
            assert rest[j] in s[1..];
          }
        }
      }
    }
  }

  lemma {:induction false} SortSorts<T(!new)>(s: seq<T>, ahead: (T, T) -> bool)
    requires TotalPreorder(ahead)
    ensures SortedBy(StableSort(s, ahead), ahead)
  {
    if s != [] {
      SortSorts(s[1..], ahead);
      InsertSorts(s[0], StableSort(s[1..], ahead), ahead);
    }
  }

  /** Where `Insert` puts x. */
  ghost function InsertPlace<T>(x: T, s: seq<T>, ahead: (T, T) -> bool): (place: nat)
    ensures place <= |s|
  {
    if s == [] || ahead(x, s[0]) then 0 else 1 + InsertPlace(x, s[1..], ahead)
  }

  lemma {:induction false} InsertSplits<T>(x: T, s: seq<T>, ahead: (T, T) -> bool)
    ensures var k := InsertPlace(x, s, ahead);
      && Inserted(Insert(x, s, ahead), s, x, k) && forall i :: 0 <= i < k ==> !ahead(x, s[i])
  {
    if s != [] && !ahead(x, s[0]) {
      InsertSplits(x, s[1..], ahead);
      InsertedBehind(Insert(x, s[1..], ahead), s, x, InsertPlace(x, s[1..], ahead));
      forall i | 0 < i < InsertPlace(x, s, ahead) ensures !ahead(x, s[i]) {
        assert s[i] == s[1..][i - 1];
      }
    }
  }

  lemma InsertedBehind<T>(more: seq<T>, s: seq<T>, x: T, k: nat)
    requires s != [] && Inserted(more, s[1..], x, k)
    ensures Inserted([s[0]] + more, s, x, k + 1)
  {
  }

  /** `more` is s with x put at place k. */
  ghost predicate Inserted<T>(more: seq<T>, s: seq<T>, x: T, k: nat) {
    && k <= |s| && |more| == |s| + 1
    && more[k] == x && (forall i :: 0 <= i < k ==> more[i] == s[i]) && (forall i :: k < i < |more| ==> more[i] == s[i - 1])
  }

  /** A new first element, put at place k of what the others were sorted to. */
  ghost function Placed(order: seq<nat>, k: nat): (next: seq<nat>)
    requires k <= |order|
    ensures |next| == |order| + 1
  {
    seq(|order| + 1, i requires 0 <= i <= |order| => if i == k then 0 else if i < k then order[i] + 1 else order[i - 1] + 1)
  }

  /** The places the elements of the sorted sequence come from. */
  ghost function SortOrder<T>(s: seq<T>, ahead: (T, T) -> bool): (order: seq<nat>)
    ensures |order| == |s|
  {
    if s == [] then []
    else
      SortPermutes(s[1..], ahead);
      Placed(SortOrder(s[1..], ahead), InsertPlace(s[0], StableSort(s[1..], ahead), ahead))
  }

  /** `sorted` has every element of s once, taken from the place `order` tells; elements that may stand either way round keep their
      order. */
  ghost predicate StablyOrders<T>(order: seq<nat>, s: seq<T>, sorted: seq<T>, ahead: (T, T) -> bool) {
    && |order| == |s| == |sorted|
    && (forall i :: 0 <= i < |s| ==> order[i] < |s| && sorted[i] == s[order[i]])
    && (forall k: nat :: k < |s| ==> k in order)
    && (forall i, j :: 0 <= i < j < |s| ==> order[i] != order[j] && (ahead(sorted[j], sorted[i]) ==> order[i] < order[j]))
  }

  /** Sorting takes every element to one place, and is stable. */
  lemma {:induction false} SortIsStable<T>(s: seq<T>, ahead: (T, T) -> bool)
    ensures StablyOrders(SortOrder(s, ahead), s, StableSort(s, ahead), ahead)
  {
    if s != [] {
      hide StablyOrders, Placed, Inserted;
      var tail := StableSort(s[1..], ahead);
      SortIsStable(s[1..], ahead);
      InsertSplits(s[0], tail, ahead);
      assert s == [s[0]] + s[1..];
      StableWithFirst(s[0], s[1..], tail, SortOrder(s[1..], ahead), InsertPlace(s[0], tail, ahead), StableSort(s, ahead), ahead);
    } else {
      assert StablyOrders([], s, s, ahead);
    }
  }

  lemma StableWithFirst<T>(x: T, s: seq<T>, sorted: seq<T>, order: seq<nat>, k: nat, more: seq<T>, ahead: (T, T) -> bool)
    requires StablyOrders(order, s, sorted, ahead) && Inserted(more, sorted, x, k) && forall i :: 0 <= i < k ==> !ahead(x, sorted[i])
    ensures StablyOrders(Placed(order, k), [x] + s, more, ahead)
  {
    var next := Placed(order, k);
    EveryPlace(order, k, |s|);
    forall i | 0 <= i < |next|
      ensures next[i] < |s| + 1 && more[i] == ([x] + s)[next[i]]
    {
    }
    forall i, j | 0 <= i < j < |next| ensures next[i] != next[j] && (ahead(more[j], more[i]) ==> next[i] < next[j]) {
      StillBefore(x, s, sorted, order, k, more, ahead, i, j);
    }
  }

  lemma StillBefore<T>(x: T, s: seq<T>, sorted: seq<T>, order: seq<nat>, k: nat, more: seq<T>, ahead: (T, T) -> bool, i: nat, j: nat)
    requires StablyOrders(order, s, sorted, ahead) && Inserted(more, sorted, x, k) && forall i :: 0 <= i < k ==> !ahead(x, sorted[i])
    requires i < j < |more|
    ensures var next := Placed(order, k); next[i] != next[j] && (ahead(more[j], more[i]) ==> next[i] < next[j])
  {
    if j == k {
      assert more[j] == x && more[i] == sorted[i];
    } else if i != k {
      var a, b := if i < k then i else i - 1, if j < k then j else j - 1;
      assert more[i] == sorted[a] && more[j] == sorted[b];
    }
  }

  lemma EveryPlace(order: seq<nat>, k: nat, n: nat)
    requires k <= |order| && forall m: nat :: m < n ==> m in order
    ensures forall m: nat :: m < n + 1 ==> m in Placed(order, k)
  {
    var next := Placed(order, k);
    forall m: nat | m < n + 1 ensures m in next {
      if m == 0 {
        assert next[k] == 0;
      } else {
        assert m - 1 in order;
        var i :| 0 <= i < |order| && order[i] == m - 1;
        assert next[if i < k then i else i + 1] == m;
      }
    }
  }

  /** A sequence without repetitions has as many elements as its set. */
  lemma {:induction false} DistinctSize<T>(s: seq<T>, all: set<T>)
    requires forall i, j :: 0 <= i < j < |s| ==> s[i] != s[j]
    requires forall x :: x in all <==> x in s
    ensures |all| == |s|
  {
    if s == [] {
      assert all == {};
    } else {
      var front, last := s[..|s| - 1], s[|s| - 1];
      assert last !in front;
      DistinctSize(front, all - {last});
    }
  }

  ghost predicate DistinctBy<T, K>(s: seq<T>, key: T -> K) {
    forall i, j :: 0 <= i < j < |s| ==> key(s[i]) != key(s[j])
  }

  lemma {:induction false} InsertKeepsDistinct<T, K>(x: T, s: seq<T>, ahead: (T, T) -> bool, key: T -> K)
    requires DistinctBy(s, key) && forall y :: y in s ==> key(y) != key(x)
    ensures DistinctBy(Insert(x, s, ahead), key)
  {
    if s != [] && !ahead(x, s[0]) {
      var rest := Insert(x, s[1..], ahead);
      InsertKeepsDistinct(x, s[1..], ahead, key);
      InsertPermutes(x, s[1..], ahead);
      forall j | 0 <= j < |rest| ensures key(s[0]) != key(rest[j]) {
        assert rest[j] in multiset(rest);
        if rest[j] != x {
          assert rest[j] in s[1..];
          var i :| 0 <= i < |s[1..]| && s[1..][i] == rest[j];
          assert s[i + 1] == rest[j];
        } else {
          assert s[0] in s;
        }
      }
    }
  }

  lemma {:induction false} SortKeepsDistinct<T, K>(s: seq<T>, ahead: (T, T) -> bool, key: T -> K)
    requires DistinctBy(s, key)
    ensures DistinctBy(StableSort(s, ahead), key)
  {
    if s != [] {
      var rest := StableSort(s[1..], ahead);
      SortKeepsDistinct(s[1..], ahead, key);
      SortPermutes(s[1..], ahead);
      forall y | y in rest ensures key(y) != key(s[0]) {
        assert y in multiset(rest) && multiset(rest) == multiset(s[1..]);
        var i :| 0 <= i < |s[1..]| && s[1..][i] == y;
        assert s[i + 1] == y;
      }
      InsertKeepsDistinct(s[0], rest, ahead, key);
    }
  }

  // ---- strings -------------------------------------------------------------------

  /** Lexicographic order by code point. */
  predicate StrLess(a: string, b: string) {
    if b == "" then false
    else if a == "" then true
    else a[0] < b[0] || (a[0] == b[0] && StrLess(a[1..], b[1..]))
  }

  lemma {:induction false} StrLessTotal(a: string, b: string)
    ensures a == b <==> !StrLess(a, b) && !StrLess(b, a)
    ensures !(StrLess(a, b) && StrLess(b, a))
  {
    if a != "" && b != "" {
      StrLessTotal(a[1..], b[1..]);
      assert a == [a[0]] + a[1..] && b == [b[0]] + b[1..];
    }
  }

  lemma {:induction false} StrLessTransitive(a: string, b: string, c: string)
    requires !StrLess(a, b) && !StrLess(b, c)
    ensures !StrLess(a, c)
  {
    if a != "" && b != "" && c != "" && a[0] == b[0] == c[0] {
      StrLessTransitive(a[1..], b[1..], c[1..]);
    }
  }
}
