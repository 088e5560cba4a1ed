/** Grouping positions opened within one time window, and why no other grouping needs fewer groups. */
module Grouping {
  import opened Common
  import opened Sorting

  /** A position with its opening time, counted from the first instant of the calendar; None when it has none. */
  datatype Item = Item(id: string, opened_at: Option<nat>)

  /** The key the items are sorted by: an undated item counts as the first instant. */
  function TimeKey(item: Item): nat { item.opened_at.GetOr(0) }

  function EarlierItem(): (Item, Item) -> bool { (a: Item, b: Item) => TimeKey(a) <= TimeKey(b) }

  function Sorted(items: seq<Item>): seq<Item> { StableSort(items, EarlierItem()) }

  function Flatten(groups: seq<seq<Item>>): seq<Item> {
    if groups == [] then [] else Flatten(groups[..|groups| - 1]) + groups[|groups| - 1]
  }

  predicate Dated(group: seq<Item>) { group != [] && group[0].opened_at.Some? }

  /** A single undated item, or dated items no more than the window after the first of them. */
  predicate FitsWindow(group: seq<Item>, window: int) {
    && group != []
    && (group[0].opened_at.None? ==> |group| == 1)
    && (forall i :: 0 < i < |group| ==> group[i].opened_at.Some? && TimeKey(group[i]) - TimeKey(group[0]) <= window)
  }

  /** Two dated groups in a row start more than the window apart. */
  predicate StartApart(groups: seq<seq<Item>>, window: int) {
    forall i :: 0 <= i < |groups| - 1 && Dated(groups[i]) && Dated(groups[i + 1]) ==>
      TimeKey(groups[i + 1][0]) - TimeKey(groups[i][0]) > window
  }

  /** The groups cut `sorted` into windows, each opened by the first item the one before does not cover. */
  ghost predicate GreedyGroups(groups: seq<seq<Item>>, sorted: seq<Item>, window: int) {
    && Flatten(groups) == sorted
    && (forall i :: 0 <= i < |groups| ==> FitsWindow(groups[i], window))
    && StartApart(groups, window)
  }

  lemma GreedyCloses(groups: seq<seq<Item>>, current: seq<Item>, sorted: seq<Item>, window: int)
    requires GreedyGroups(groups, sorted, window) && FitsWindow(current, window)
    requires groups != [] && Dated(groups[|groups| - 1]) && Dated(current) ==>
               TimeKey(current[0]) - TimeKey(groups[|groups| - 1][0]) > window
    ensures GreedyGroups(groups + [current], sorted + current, window)
  {
    assert (groups + [current])[..|groups|] == groups;
  }

  /** Of the items seen, all but those of the current group are in greedy groups, and the current group is dated items
      that fit a window the group before does not reach. */
  ghost predicate Grouped(groups: seq<seq<Item>>, current: seq<Item>, closed: seq<Item>, window: int) {
    && GreedyGroups(groups, closed, window)
    && (current != [] ==> FitsWindow(current, window) && Dated(current))
    && (current != [] && groups != [] && Dated(groups[|groups| - 1]) ==>
          TimeKey(current[0]) - TimeKey(groups[|groups| - 1][0]) > window)
    && (current == [] && groups != [] ==> !Dated(groups[|groups| - 1]))
  }

  lemma ClosesCurrent(groups: seq<seq<Item>>, current: seq<Item>, closed: seq<Item>, window: int)
    requires Grouped(groups, current, closed, window) && current != []
    ensures GreedyGroups(groups + [current], closed + current, window)
  {
    hide GreedyGroups;
    GreedyCloses(groups, current, closed, window);
  }

  lemma UndatedStandsAlone(groups: seq<seq<Item>>, closed: seq<Item>, item: Item, window: int)
    requires GreedyGroups(groups, closed, window) && item.opened_at.None?
    ensures Grouped(groups + [[item]], [], closed + [item], window)
  {
    hide GreedyGroups;
    GreedyCloses(groups, [item], closed, window);
  }

  lemma DatedStarts(groups: seq<seq<Item>>, closed: seq<Item>, item: Item, window: int)
    requires Grouped(groups, [], closed, window) && item.opened_at.Some?
    ensures Grouped(groups, [item], closed, window)
  {
    hide GreedyGroups;
  }

  lemma DatedJoins(groups: seq<seq<Item>>, current: seq<Item>, closed: seq<Item>, item: Item, window: int)
    requires Grouped(groups, current, closed, window) && current != [] && item.opened_at.Some?
    requires TimeKey(item) - TimeKey(current[0]) <= window
    ensures Grouped(groups, current + [item], closed, window)
  {
    hide GreedyGroups;
  }

  lemma DatedCuts(groups: seq<seq<Item>>, current: seq<Item>, closed: seq<Item>, item: Item, window: int)
    requires Grouped(groups, current, closed, window) && current != [] && item.opened_at.Some?
    requires TimeKey(item) - TimeKey(current[0]) > window
    ensures Grouped(groups + [current], [item], closed + current, window)
  {
    hide GreedyGroups;
    ClosesCurrent(groups, current, closed, window);
  }

  /** `group_positions`. */
  method GroupPositions(items: seq<Item>, window: int) returns (groups: seq<seq<Item>>)
    ensures GreedyGroups(groups, Sorted(items), window)
  {
    hide GreedyGroups, Grouped, Sorted;
    NothingIsGrouped(window);
    var sorted := Sorted(items);
    groups := [];
    var current: seq<Item> := [];
    ghost var closed: seq<Item> := [];
    for i := 0 to |sorted|
      invariant sorted[..i] == closed + current && Grouped(groups, current, closed, window)
    {
      var item := sorted[i];
      assert sorted[..i + 1] == sorted[..i] + [item];
      if item.opened_at.None? {
        if current != [] {
          ClosesCurrent(groups, current, closed, window);
          groups := groups + [current];
          closed := closed + current;
          current := [];
        } else {
          GroupedIsGreedy(groups, current, closed, window);
        }
        UndatedStandsAlone(groups, closed, item, window);
        groups := groups + [[item]];
        closed := closed + [item];
      } else if current == [] {
        DatedStarts(groups, closed, item, window);
        current := [item];
      } else if TimeKey(item) - TimeKey(current[0]) <= window {
        DatedJoins(groups, current, closed, item, window);
        current := current + [item];
      } else {
        DatedCuts(groups, current, closed, item, window);
        groups := groups + [current];
        closed := closed + current;
        current := [item];
      }
    }
    assert sorted[..|sorted|] == sorted;
    if current != [] {
      ClosesCurrent(groups, current, closed, window);
      groups := groups + [current];
    } else {
      GroupedIsGreedy(groups, current, closed, window);
      assert closed + [] == closed;
    }
  }

  lemma GroupedIsGreedy(groups: seq<seq<Item>>, current: seq<Item>, closed: seq<Item>, window: int)
    requires Grouped(groups, current, closed, window)
    ensures GreedyGroups(groups, closed, window)
  {
  }

  lemma NothingIsGrouped(window: int)
    ensures Grouped([], [], [], window)
  {
  }

  // ---- the groups partition the input --------------------------------------------

  /** Every given item is in exactly one group. */
  lemma GroupsPartition(groups: seq<seq<Item>>, items: seq<Item>, window: int)
    requires GreedyGroups(groups, Sorted(items), window)
    ensures multiset(Flatten(groups)) == multiset(items)
  {
    SortPermutes(items, EarlierItem());
  }

  // ---- the contract determines the groups ----------------------------------------

  lemma {:induction false} FlattenFirst(groups: seq<seq<Item>>)
    requires groups != []
    ensures Flatten(groups) == groups[0] + Flatten(groups[1..])
  {
    var n := |groups| - 1;
    if n > 0 {
      FlattenFirst(groups[..n]);
      assert groups[..n][1..] == groups[1..][..n - 1];
    } else {
      assert groups[..0] == [] && groups[1..] == [];
    }
  }

  lemma NextStartsApart(groups: seq<seq<Item>>, window: int, i: nat)
    requires StartApart(groups, window) && i + 1 < |groups| && Dated(groups[i]) && Dated(groups[i + 1])
    ensures TimeKey(groups[i + 1][0]) - TimeKey(groups[i][0]) > window
  {
  }

  lemma GreedyTail(groups: seq<seq<Item>>, sorted: seq<Item>, window: int)
    requires GreedyGroups(groups, sorted, window) && groups != []
    ensures sorted == groups[0] + Flatten(groups[1..]) && GreedyGroups(groups[1..], Flatten(groups[1..]), window)
  {
    FlattenFirst(groups);
    var rest := groups[1..];
    forall i | 0 <= i < |rest| - 1 && Dated(rest[i]) && Dated(rest[i + 1])
      ensures TimeKey(rest[i + 1][0]) - TimeKey(rest[i][0]) > window
    {
      assert Dated(groups[i + 1]) && Dated(groups[i + 2]);
      NextStartsApart(groups, window, i + 1);
    }
  }

  /** The first group cannot be shorter in one greedy grouping than in another. */
  lemma FirstGroupIsLongest(a: seq<seq<Item>>, b: seq<seq<Item>>, sorted: seq<Item>, window: int)
    requires GreedyGroups(a, sorted, window) && GreedyGroups(b, sorted, window) && a != [] && b != []
    ensures |a[0]| >= |b[0]|
  {
    GreedyTail(a, sorted, window);
    GreedyTail(b, sorted, window);
    assert FitsWindow(a[0], window) && FitsWindow(b[0], window);
    if |a[0]| < |b[0]| {
      var n := |a[0]|;
      assert b[0][n] == sorted[n] && a[0][0] == sorted[0] == b[0][0];
      assert |Flatten(a[1..])| > 0;
      assert |a[1..]| > 0;
      FlattenFirst(a[1..]);
      assert FitsWindow(a[1], window) && a[1][0] == sorted[n];
      NextStartsApart(a, window, 0);
    }
  }

  lemma GroupsHoldItems(groups: seq<seq<Item>>, sorted: seq<Item>, window: int)
    requires GreedyGroups(groups, sorted, window) && groups != []
    ensures sorted != []
  {
    GreedyTail(groups, sorted, window);
    assert FitsWindow(groups[0], window);
  }

  /** One greedy grouping of a sequence: what `GroupPositions` promises leaves it no choice. */
  lemma {:induction false} GreedyIsUnique(a: seq<seq<Item>>, b: seq<seq<Item>>, sorted: seq<Item>, window: int)
    requires GreedyGroups(a, sorted, window) && GreedyGroups(b, sorted, window)
    ensures a == b
    decreases |a|
  {
    if a != [] { GroupsHoldItems(a, sorted, window); }
    if b != [] { GroupsHoldItems(b, sorted, window); }
    if sorted != [] {
      FirstGroupIsLongest(a, b, sorted, window);
      FirstGroupIsLongest(b, a, sorted, window);
      GreedyTail(a, sorted, window);
      GreedyTail(b, sorted, window);
      var n := |a[0]|;
      assert a[0] == sorted[..n] == b[0];
      assert Flatten(a[1..]) == sorted[n..] == Flatten(b[1..]);
      GreedyIsUnique(a[1..], b[1..], sorted[n..], window);
      assert a == [a[0]] + a[1..] && b == [b[0]] + b[1..];
    }
  }

  // ---- fewest groups -------------------------------------------------------------

  /** Another way to group: item i of the sorted items goes to group `other[i]`; two dated items of one group are no
      more than the window apart. */
  ghost predicate Groups(other: seq<nat>, sorted: seq<Item>, window: int) {
    && |other| == |sorted|
    && forall i, j :: 0 <= i < j < |sorted| && sorted[i].opened_at.Some? && sorted[j].opened_at.Some? && other[i] == other[j] ==>
         TimeKey(sorted[j]) - TimeKey(sorted[i]) <= window
  }

  /** The groups that hold a dated item. */
  function DatedGroups(other: seq<nat>, sorted: seq<Item>): set<nat>
    requires |other| == |sorted|
  {
    set i | 0 <= i < |sorted| && sorted[i].opened_at.Some? :: other[i]
  }

  function CountDated(groups: seq<seq<Item>>): nat {
    if groups == [] then 0 else CountDated(groups[..|groups| - 1]) + (if Dated(groups[|groups| - 1]) then 1 else 0)
  }

  /** No grouping has fewer groups with a dated item. */
  ghost predicate Fewest(groups: seq<seq<Item>>, sorted: seq<Item>, window: int) {
    forall other :: Groups(other, sorted, window) ==> CountDated(groups) <= |DatedGroups(other, sorted)|
  }

  /** The sorted items behind instant `t`. */
  function Later(sorted: seq<Item>, t: int): (r: seq<Item>)
    ensures |r| <= |sorted|
  {
    if sorted == [] || TimeKey(sorted[0]) > t then sorted else Later(sorted[1..], t)
  }

  /** How many groups the dated items need, whatever undated items stand between them. */
  function Needed(sorted: seq<Item>, window: int): nat
    decreases |sorted|
  {
    if sorted == [] then 0
    else if sorted[0].opened_at.None? then Needed(sorted[1..], window)
    else 1 + Needed(Later(sorted[1..], TimeKey(sorted[0]) + window), window)
  }

  lemma NeededFirst(sorted: seq<Item>, window: int)
    requires sorted != []
    ensures Needed(sorted, window) ==
              if sorted[0].opened_at.None? then Needed(sorted[1..], window)
              else 1 + Needed(Later(sorted[1..], TimeKey(sorted[0]) + window), window)
  {
  }

  lemma LaterDrops(sorted: seq<Item>, t: int)
    requires sorted != [] && TimeKey(sorted[0]) <= t
    ensures Later(sorted, t) == Later(sorted[1..], t)
  {
  }

  lemma LaterKeeps(sorted: seq<Item>, t: int)
    requires sorted == [] || TimeKey(sorted[0]) > t
    ensures Later(sorted, t) == sorted
  {
  }

  /** Items sorted by time split at an instant. */
  lemma {:induction false} LaterSplits(sorted: seq<Item>, t: int)
    requires SortedBy(sorted, EarlierItem())
    ensures var n := |sorted| - |Later(sorted, t)|;
      && Later(sorted, t) == sorted[n..] && SortedBy(Later(sorted, t), EarlierItem())
      && (forall i :: 0 <= i < n ==> TimeKey(sorted[i]) <= t)
      && (forall i :: n <= i < |sorted| ==> TimeKey(sorted[i]) > t)
  {
    hide Later;
    if sorted == [] || TimeKey(sorted[0]) > t {
      LaterKeeps(sorted, t);
      forall i | 0 < i < |sorted| ensures TimeKey(sorted[0]) <= TimeKey(sorted[i]) {
        assert EarlierItem()(sorted[0], sorted[i]);
      }
    } else {
      LaterDrops(sorted, t);
      LaterSplits(sorted[1..], t);
      forall i | 0 < i < |sorted| ensures sorted[i] == sorted[1..][i - 1] {
      }
    }
  }

  /** What the first group need not cover: the items behind a first undated item, or behind the window of a dated one. */
  function Rest(sorted: seq<Item>, window: int): (r: seq<Item>)
    requires sorted != []
    ensures |r| < |sorted|
  {
    if sorted[0].opened_at.None? then sorted[1..] else Later(sorted[1..], TimeKey(sorted[0]) + window)
  }

  lemma RestIsBehind(sorted: seq<Item>, window: int)
    requires SortedBy(sorted, EarlierItem()) && sorted != []
    ensures var rest := Rest(sorted, window); var n := |sorted| - |rest|;
      && rest == sorted[n..] && SortedBy(rest, EarlierItem())
      && Needed(sorted, window) == Needed(rest, window) + (if sorted[0].opened_at.Some? then 1 else 0)
      && (if sorted[0].opened_at.None? then n == 1 else
            && (forall i :: 0 < i < n ==> TimeKey(sorted[i]) <= TimeKey(sorted[0]) + window)
            && (forall i :: n <= i < |sorted| ==> TimeKey(sorted[i]) > TimeKey(sorted[0]) + window))
  {
    hide Needed, Later;
    NeededFirst(sorted, window);
    LaterSplits(sorted[1..], TimeKey(sorted[0]) + window);
    forall i | 0 < i < |sorted| ensures sorted[i] == sorted[1..][i - 1] {
    }
  }

  /** Of any grouping, the first item's group does not reach the items behind its window. */
  lemma {:induction false} NoGroupingHasFewer(other: seq<nat>, sorted: seq<Item>, window: int)
    requires SortedBy(sorted, EarlierItem()) && Groups(other, sorted, window)
    ensures Needed(sorted, window) <= |DatedGroups(other, sorted)|
    decreases |sorted|
  {
    hide Needed, Rest, SortedBy;
    if sorted == [] {
      NothingNeeded(window);
    } else {
      RestIsBehind(sorted, window);
      var rest := Rest(sorted, window);
      var n := |sorted| - |rest|;
      forall i | 0 <= i < |rest| ensures rest[i] == sorted[n + i] && other[n..][i] == other[n + i] {
      }
      NoGroupingHasFewer(other[n..], rest, window);
      var behind := DatedGroups(other[n..], rest);
      if sorted[0].opened_at.Some? {
        assert other[0] !in behind;
        SubsetHasFewer(behind + {other[0]}, DatedGroups(other, sorted));
      } else {
        SubsetHasFewer(behind, DatedGroups(other, sorted));
      }
    }
  }

  lemma NothingNeeded(window: int)
    ensures Needed([], window) == 0
  {
  }

  /** A grouping with no more groups than needed. */
  lemma {:induction false} SomeGroupingSuffices(sorted: seq<Item>, window: int) returns (other: seq<nat>)
    requires SortedBy(sorted, EarlierItem())
    ensures Groups(other, sorted, window) && |DatedGroups(other, sorted)| == Needed(sorted, window)
    ensures forall i :: 0 <= i < |sorted| && sorted[i].opened_at.Some? ==> other[i] < Needed(sorted, window)
    decreases |sorted|
  {
    hide Needed, Rest, SortedBy;
    other := [];
    if sorted != [] {
      RestIsBehind(sorted, window);
      var rest := Rest(sorted, window);
      var behind := SomeGroupingSuffices(rest, window);
      other := FirstGroupFits(behind, sorted, window);
    }
    NoGroupingHasFewer(other, sorted, window);
    BelowIsAtMost(DatedGroups(other, sorted), Needed(sorted, window));
  }

  lemma FirstGroupFits(behind: seq<nat>, sorted: seq<Item>, window: int) returns (other: seq<nat>)
    requires SortedBy(sorted, EarlierItem()) && sorted != [] && Groups(behind, Rest(sorted, window), window)
    requires var rest := Rest(sorted, window);
      forall i :: 0 <= i < |rest| && rest[i].opened_at.Some? ==> behind[i] < Needed(rest, window)
    ensures Groups(other, sorted, window)
    ensures forall i :: 0 <= i < |sorted| && sorted[i].opened_at.Some? ==> other[i] < Needed(sorted, window)
  {
    hide Needed, Rest;
    RestIsBehind(sorted, window);
    var rest := Rest(sorted, window);
    var n, first := |sorted| - |rest|, Needed(rest, window);
    other := seq(n, i => first) + behind;
    forall i | n <= i < |sorted| ensures other[i] == behind[i - n] && sorted[i] == rest[i - n] {
    }
    forall i, j | 0 <= i < j < |sorted| && sorted[i].opened_at.Some? && sorted[j].opened_at.Some? && other[i] == other[j]
      ensures TimeKey(sorted[j]) - TimeKey(sorted[i]) <= window
    {
      if i < n {
        assert i > 0 ==> EarlierItem()(sorted[0], sorted[i]);
      } else {
        assert sorted[i] == rest[i - n] && sorted[j] == rest[j - n];
      }
    }
  }

  lemma {:induction false} BelowIsAtMost(a: set<nat>, n: nat)
    requires forall x :: x in a ==> x < n
    ensures |a| <= n
  {
    if n > 0 {
      BelowIsAtMost(a - {n - 1}, n - 1);
      SubsetHasFewer(a, (a - {n - 1}) + {n - 1});
    } else {
      assert a == {};
    }
  }

  lemma SubsetHasFewer(a: set<nat>, b: set<nat>)
    requires a <= b
    ensures |a| <= |b|
  {
    assert b == a + (b - a);
  }

  /** Items later in time need no more groups than all of them. */
  lemma SuffixNeedsNoMore(sorted: seq<Item>, window: int, n: nat)
    requires SortedBy(sorted, EarlierItem()) && n <= |sorted|
    ensures Needed(sorted[n..], window) <= Needed(sorted, window)
  {
    var other := SomeGroupingSuffices(sorted, window);
    NoGroupingHasFewer(other[n..], sorted[n..], window);
    forall g | g in DatedGroups(other[n..], sorted[n..]) ensures g in DatedGroups(other, sorted) {
      var i :| 0 <= i < |sorted[n..]| && sorted[n..][i].opened_at.Some? && g == other[n..][i];
      assert sorted[n + i] == sorted[n..][i];
    }
    SubsetHasFewer(DatedGroups(other[n..], sorted[n..]), DatedGroups(other, sorted));
  }

  /** The items left when a group stops at the first that is undated or behind instant `t`. */
  function Beyond(sorted: seq<Item>, t: int): (r: seq<Item>)
    ensures |r| <= |sorted|
  {
    if sorted == [] || sorted[0].opened_at.None? || TimeKey(sorted[0]) > t then sorted else Beyond(sorted[1..], t)
  }

  /** How many dated groups the loop makes: an undated item ends the group before it. */
  function Made(sorted: seq<Item>, window: int): nat
    decreases |sorted|
  {
    if sorted == [] then 0
    else if sorted[0].opened_at.None? then Made(sorted[1..], window)
    else 1 + Made(Beyond(sorted[1..], TimeKey(sorted[0]) + window), window)
  }

  lemma MadeFirst(sorted: seq<Item>, window: int)
    requires sorted != []
    ensures Made(sorted, window) ==
              if sorted[0].opened_at.None? then Made(sorted[1..], window)
              else 1 + Made(Beyond(sorted[1..], TimeKey(sorted[0]) + window), window)
  {
  }

  lemma NothingMade(window: int)
    ensures Made([], window) == 0
  {
  }

  /** A group that stops at undated items leaves no less than one that runs over them. */
  lemma {:induction false} LaterIsBeyond(sorted: seq<Item>, t: int)
    ensures var n := |Beyond(sorted, t)| - |Later(sorted, t)|; n >= 0 && Later(sorted, t) == Beyond(sorted, t)[n..]
  {
    if sorted != [] && TimeKey(sorted[0]) <= t {
      LaterIsBeyond(sorted[1..], t);
      LaterIsSuffix(sorted, t);
    }
  }

  lemma {:induction false} LaterIsSuffix(sorted: seq<Item>, t: int)
    ensures Later(sorted, t) == sorted[|sorted| - |Later(sorted, t)|..]
  {
    if sorted != [] && TimeKey(sorted[0]) <= t { LaterIsSuffix(sorted[1..], t); }
  }

  lemma {:induction false} BeyondIsSorted(sorted: seq<Item>, t: int)
    requires SortedBy(sorted, EarlierItem())
    ensures SortedBy(Beyond(sorted, t), EarlierItem())
  {
    if sorted != [] { BeyondIsSorted(sorted[1..], t); }
  }

  lemma {:induction false} BeyondStops(sorted: seq<Item>, t: int, n: nat)
    requires n <= |sorted| && forall i :: 0 <= i < n ==> sorted[i].opened_at.Some? && TimeKey(sorted[i]) <= t
    requires n < |sorted| ==> sorted[n].opened_at.None? || TimeKey(sorted[n]) > t
    ensures Beyond(sorted, t) == sorted[n..]
  {
    if n > 0 { BeyondStops(sorted[1..], t, n - 1); }
  }

  lemma {:induction false} CountDatedFirst(groups: seq<seq<Item>>)
    requires groups != []
    ensures CountDated(groups) == (if Dated(groups[0]) then 1 else 0) + CountDated(groups[1..])
  {
    var n := |groups| - 1;
    if n > 0 {
      CountDatedFirst(groups[..n]);
      assert groups[..n][1..] == groups[1..][..n - 1];
    } else {
      assert groups[..0] == [] && groups[1..] == [];
    }
  }

  lemma {:induction false} GreedyMakes(groups: seq<seq<Item>>, sorted: seq<Item>, window: int)
    requires GreedyGroups(groups, sorted, window)
    ensures CountDated(groups) == Made(sorted, window)
    decreases |groups|
  {
    hide GreedyGroups, CountDated, Made, Beyond;
    if groups != [] {
      var rest := groups[1..];
      GroupsHoldItems(groups, sorted, window);
      MadeFirst(sorted, window);
      GreedyFits(groups, sorted, window);
      GreedyTail(groups, sorted, window);
      CountDatedFirst(groups);
      GreedyMakes(rest, Flatten(rest), window);
      assert sorted[0] == groups[0][0];
      if Dated(groups[0]) {
        var n := |groups[0]| - 1;
        forall i | 0 <= i < n ensures sorted[1..][i] == groups[0][i + 1] {
        }
        assert sorted[1..][n..] == Flatten(rest);
        if rest != [] {
          FlattenFirst(rest);
          assert sorted[1..][n] == groups[1][0];
          if Dated(groups[1]) { NextStartsApart(groups, window, 0); }
        }
        BeyondStops(sorted[1..], TimeKey(sorted[0]) + window, n);
      } else {
        assert sorted[1..] == Flatten(rest);
      }
    } else {
      NothingIsCounted(sorted, window);
    }
  }

  lemma NothingIsCounted(sorted: seq<Item>, window: int)
    requires GreedyGroups([], sorted, window)
    ensures CountDated([]) == Made(sorted, window)
  {
  }

  lemma GreedyFits(groups: seq<seq<Item>>, sorted: seq<Item>, window: int)
    requires GreedyGroups(groups, sorted, window)
    ensures StartApart(groups, window) && forall i :: 0 <= i < |groups| ==> FitsWindow(groups[i], window)
  {
  }

  /** An undated item stands behind one of the first instant, and costs a group: another of the first instant stands behind
      it, or the items after the first instant need more groups when those within the window of it are among them. */
  predicate UndatedCosts(sorted: seq<Item>, window: int) {
    && window >= 0
    && exists i, j :: 0 <= i < j < |sorted| && sorted[i].opened_at == Some(0) && sorted[j].opened_at.None? &&
         (Needed(Later(sorted, 0), window) != Needed(Later(sorted, window), window) || HoldsOrigin(sorted[j..]))
  }

  predicate HoldsOrigin(sorted: seq<Item>) { exists k :: 0 <= k < |sorted| && sorted[k].opened_at == Some(0) }

  lemma {:induction false} MadeIsNeededAtLeast(sorted: seq<Item>, window: int)
    requires SortedBy(sorted, EarlierItem())
    ensures Made(sorted, window) >= Needed(sorted, window)
    decreases |sorted|
  {
    hide Needed, Made, Later, Beyond;
    NothingNeeded(window);
    NothingMade(window);
    if sorted != [] {
      NeededFirst(sorted, window);
      MadeFirst(sorted, window);
      if sorted[0].opened_at.None? {
        MadeIsNeededAtLeast(sorted[1..], window);
      } else {
        var t := TimeKey(sorted[0]) + window;
        var made, needed := Beyond(sorted[1..], t), Later(sorted[1..], t);
        BeyondIsSorted(sorted[1..], t);
        MadeIsNeededAtLeast(made, window);
        LaterIsBeyond(sorted[1..], t);
        SuffixNeedsNoMore(made, window, |made| - |needed|);
      }
    }
  }

  lemma {:induction false} DatedAreAllTaken(sorted: seq<Item>, t: int)
    requires forall i :: 0 <= i < |sorted| ==> sorted[i].opened_at.Some?
    ensures Beyond(sorted, t) == Later(sorted, t)
  {
    if sorted != [] && TimeKey(sorted[0]) <= t { DatedAreAllTaken(sorted[1..], t); }
  }

  lemma {:induction false} DatedMakeWhatTheyNeed(sorted: seq<Item>, window: int)
    requires forall i :: 0 <= i < |sorted| ==> sorted[i].opened_at.Some?
    ensures Made(sorted, window) == Needed(sorted, window)
    decreases |sorted|
  {
    hide Needed, Made, Later, Beyond;
    NothingNeeded(window);
    NothingMade(window);
    if sorted != [] {
      NeededFirst(sorted, window);
      MadeFirst(sorted, window);
      var t := TimeKey(sorted[0]) + window;
      LaterIsSuffix(sorted[1..], t);
      DatedAreAllTaken(sorted[1..], t);
      DatedMakeWhatTheyNeed(Later(sorted[1..], t), window);
    }
  }

  /** With a negative window every dated item is a group of its own, and has to be. */
  lemma {:induction false} NothingFitsNegative(sorted: seq<Item>, window: int)
    requires SortedBy(sorted, EarlierItem()) && window < 0
    ensures Made(sorted, window) == Needed(sorted, window)
  {
    if sorted != [] {
      NothingFitsNegative(sorted[1..], window);
      if |sorted| > 1 { assert EarlierItem()(sorted[0], sorted[1]); }
    }
  }

  lemma {:induction false} LaterOfSuffix(sorted: seq<Item>, n: nat, t: int)
    requires n <= |sorted| && forall i :: 0 <= i < n ==> TimeKey(sorted[i]) <= t
    ensures Later(sorted[n..], t) == Later(sorted, t)
  {
    if n > 0 {
      LaterOfSuffix(sorted[1..], n - 1, t);
      assert sorted[1..][n - 1..] == sorted[n..];
    }
  }

  /** One group takes every dated item of the first instant and of the window behind it. */
  lemma {:induction false} OriginNeedsOne(sorted: seq<Item>, window: int)
    requires SortedBy(sorted, EarlierItem()) && window >= 0 && HoldsOrigin(sorted)
    ensures Needed(sorted, window) == 1 + Needed(Later(sorted, window), window)
  {
    hide Needed, Later;
    var k :| 0 <= k < |sorted| && sorted[k].opened_at == Some(0);
    assert k > 0 ==> EarlierItem()(sorted[0], sorted[k]);
    NeededFirst(sorted, window);
    LaterDrops(sorted, window);
    if sorted[0].opened_at.None? {
      assert sorted[1..][k - 1] == sorted[k];
      OriginNeedsOne(sorted[1..], window);
    }
  }

  lemma {:induction false} UndatedMakeNoGroup(sorted: seq<Item>, window: int)
    requires !HoldsOrigin(sorted)
    ensures Made(sorted, window) == Made(Later(sorted, 0), window)
  {
    hide Made;
    if sorted != [] { MadeFirst(sorted, window); }
    if sorted != [] && sorted[0].opened_at.None? {
      assert forall k :: 0 <= k < |sorted[1..]| ==> sorted[1..][k] == sorted[k + 1];
      UndatedMakeNoGroup(sorted[1..], window);
    }
  }

  /** When the sorted items start with one of the first instant, the first undated one tells whether it costs a group. */
  lemma FirstUndatedTells(sorted: seq<Item>, window: int, j: nat)
    requires window >= 0 && 0 < j < |sorted| && sorted[0].opened_at == Some(0)
    requires sorted[j].opened_at.None? && forall i :: 0 <= i < j ==> sorted[i].opened_at.Some?
    ensures UndatedCosts(sorted, window) <==>
              Needed(Later(sorted, 0), window) != Needed(Later(sorted, window), window) || HoldsOrigin(sorted[j..])
  {
    hide Needed, Later, HoldsOrigin;
    if !HoldsOrigin(sorted[j..]) {
      forall n: nat | j <= n < |sorted| ensures !HoldsOrigin(sorted[n..]) {
        assert sorted[n..] == sorted[j..][n - j..];
        SuffixHasNoOrigin(sorted[j..], n - j);
      }
    }
  }

  lemma CostBehindOrigin(sorted: seq<Item>, window: int, j: nat)
    requires SortedBy(sorted, EarlierItem()) && window >= 0 && 0 < j < |sorted| && sorted[0].opened_at == Some(0)
    requires sorted[j].opened_at.None? && forall i :: 0 <= i < j ==> sorted[i].opened_at.Some?
    ensures Made(sorted, window) == Needed(sorted, window) <==> !UndatedCosts(sorted, window)
  {
    hide Needed, Made, Later, Beyond, HoldsOrigin, UndatedCosts;
    FirstUndatedTells(sorted, window, j);
    NeededFirst(sorted, window);
    MadeFirst(sorted, window);
    LaterDrops(sorted, window);
    forall i | 0 <= i < j ensures TimeKey(sorted[i]) == 0 {
      assert EarlierItem()(sorted[i], sorted[j]);
    }
    var rest := sorted[j..];
    assert sorted[1..][j - 1..] == rest;
    BeyondStops(sorted[1..], window, j - 1);
    LaterOfSuffix(sorted, j, window);
    LaterOfSuffix(sorted, j, 0);
    if HoldsOrigin(rest) {
      OriginNeedsOne(rest, window);
      MadeIsNeededAtLeast(rest, window);
    } else {
      UndatedMakeNoGroup(rest, window);
      LaterSplits(sorted, 0);
      DatedMakeWhatTheyNeed(Later(sorted, 0), window);
    }
  }

  lemma SuffixHasNoOrigin(sorted: seq<Item>, n: nat)
    requires !HoldsOrigin(sorted) && n <= |sorted|
    ensures !HoldsOrigin(sorted[n..])
  {
    assert forall k :: 0 <= k < |sorted[n..]| ==> sorted[n..][k] == sorted[n + k];
  }

  lemma CostBehindUndated(sorted: seq<Item>, window: int)
    requires sorted != [] && sorted[0].opened_at.None?
    ensures UndatedCosts(sorted, window) <==> UndatedCosts(sorted[1..], window)
  {
    hide HoldsOrigin, Needed, Later;
    if window >= 0 {
      var rest := sorted[1..];
      LaterDrops(sorted, 0);
      LaterDrops(sorted, window);
      forall i, j | 0 <= i < j < |sorted| && sorted[i].opened_at == Some(0) && sorted[j].opened_at.None?
        ensures i > 0 && rest[i - 1] == sorted[i] && rest[j - 1] == sorted[j] && rest[j - 1..] == sorted[j..] {
      }
      forall i, j | 0 <= i < j < |rest| && rest[i].opened_at == Some(0) && rest[j].opened_at.None?
        ensures sorted[i + 1] == rest[i] && sorted[j + 1] == rest[j] && rest[j..] == sorted[j + 1..] {
      }
    }
  }

  lemma {:induction false} MadeIsNeededExactlyWhen(sorted: seq<Item>, window: int)
    requires SortedBy(sorted, EarlierItem())
    ensures Made(sorted, window) == Needed(sorted, window) <==> !UndatedCosts(sorted, window)
  {
    if window < 0 {
      NothingFitsNegative(sorted, window);
    } else if sorted != [] && sorted[0].opened_at.None? {
      MadeIsNeededExactlyWhen(sorted[1..], window);
      CostBehindUndated(sorted, window);
    } else if forall i :: 0 <= i < |sorted| ==> sorted[i].opened_at.Some? {
      DatedMakeWhatTheyNeed(sorted, window);
    } else {
      var j := FirstUndated(sorted);
      assert EarlierItem()(sorted[0], sorted[j]);
      CostBehindOrigin(sorted, window, j);
    }
  }

  lemma {:induction false} FirstUndated(sorted: seq<Item>) returns (j: nat)
    requires exists i :: 0 <= i < |sorted| && sorted[i].opened_at.None?
    ensures j < |sorted| && sorted[j].opened_at.None? && forall i :: 0 <= i < j ==> sorted[i].opened_at.Some?
  {
    j := 0;
    while sorted[j].opened_at.Some?
      invariant j < |sorted| && forall i :: 0 <= i < j ==> sorted[i].opened_at.Some?
      decreases |sorted| - j
    {
      j := j + 1;
    }
  }

  /** No grouping of the dated items within the window has fewer groups, exactly when no undated item costs one. */
  lemma FewestExactlyWhen(groups: seq<seq<Item>>, items: seq<Item>, window: int)
    requires GreedyGroups(groups, Sorted(items), window)
    ensures Fewest(groups, Sorted(items), window) <==> !UndatedCosts(Sorted(items), window)
  {
    hide UndatedCosts, GreedyGroups, Groups;
    var sorted := Sorted(items);
    SortSorts(items, EarlierItem());
    GreedyMakes(groups, sorted, window);
    MadeIsNeededExactlyWhen(sorted, window);
    MadeIsNeededAtLeast(sorted, window);
    var least := SomeGroupingSuffices(sorted, window);
    forall other | Groups(other, sorted, window) ensures |other| == |sorted| && Needed(sorted, window) <= |DatedGroups(other, sorted)| {
      IsAGrouping(other, sorted, window);
      NoGroupingHasFewer(other, sorted, window);
    }
  }

  lemma IsAGrouping(other: seq<nat>, sorted: seq<Item>, window: int)
    requires Groups(other, sorted, window)
    ensures |other| == |sorted|
  {
  }

  /** With an undated item in between, two positions of the first instant are not grouped, though one group would do. */
  lemma UndatedItemSplits(groups: seq<seq<Item>>)
    requires var items := [Item("a", Some(0)), Item("b", None), Item("c", Some(0))]; GreedyGroups(groups, Sorted(items), 180)
    ensures var sorted := Sorted([Item("a", Some(0)), Item("b", None), Item("c", Some(0))]);
      CountDated(groups) == 2 && Groups([0, 1, 0], sorted, 180) && |DatedGroups([0, 1, 0], sorted)| == 1
  {
    var a, b, c := Item("a", Some(0)), Item("b", None), Item("c", Some(0));
    SortedAsGiven(a, b, c);
    OneByOne(a, b, c);
    GreedyIsUnique(groups, [[a], [b], [c]], [a, b, c], 180);
    assert DatedGroups([0, 1, 0], [a, b, c]) == {0};
  }

  lemma SortedAsGiven(a: Item, b: Item, c: Item)
    requires TimeKey(a) == TimeKey(b) == TimeKey(c)
    ensures Sorted([a, b, c]) == [a, b, c]
  {
    var e := EarlierItem();
    assert [c][1..] == [] && [b, c][1..] == [c] && [a, b, c][1..] == [b, c];
    assert StableSort([c], e) == Insert(c, [], e) == [c];
    assert e(b, c) && StableSort([b, c], e) == Insert(b, [c], e) == [b] + [c] == [b, c];
    assert e(a, b) && StableSort([a, b, c], e) == Insert(a, [b, c], e) == [a] + [b, c] == [a, b, c];
  }

  lemma OneByOne(a: Item, b: Item, c: Item)
    requires Dated([a]) && !Dated([b]) && Dated([c])
    ensures GreedyGroups([[a], [b], [c]], [a, b, c], 180) && CountDated([[a], [b], [c]]) == 2
  {
    var one, two := [[a]], [[a], [b]];
    FlattenAppend([], [a]);
    FlattenAppend(one, [b]);
    FlattenAppend(two, [c]);
    assert [] + [[a]] == one && one + [[b]] == two && two + [[c]] == [[a], [b], [c]];
    assert [] + [a] == [a] && [a] + [b] == [a, b] && [a, b] + [c] == [a, b, c];
    assert CountDated([]) == 0;
  }

  lemma FlattenAppend(groups: seq<seq<Item>>, group: seq<Item>)
    ensures Flatten(groups + [group]) == Flatten(groups) + group
    ensures CountDated(groups + [group]) == CountDated(groups) + if Dated(group) then 1 else 0
  {
    assert (groups + [group])[..|groups|] == groups;
  }
}
