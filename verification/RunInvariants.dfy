/** Slots: how trades change the set of open positions, and the cap on it. */
module Slots {
  import opened Orders
  import opened LedgerSpec
  import opened LedgerFacts

  /** At most one open position per ticker. */
  ghost predicate OnePerTicker(positions: map<Id, Position>) {
    forall i, j :: i in positions && j in positions && Active(positions[i]) && Active(positions[j]) && positions[i].ticker == positions[j].ticker ==> i == j
  }

  /** The slot rule: no more open positions than slots, and one per ticker where the mode asks for it. */
  ghost predicate SlotsKept(positions: map<Id, Position>, slots: nat, onePerTicker: bool) {
    |OpenIds(positions)| <= slots && (onePerTicker ==> OnePerTicker(positions))
  }

  /** `now` holds the positions of `before` with the same owners; the open ones among them are `before`'s without `closed`. */
  ghost predicate Closes(before: map<Id, Position>, now: map<Id, Position>, closed: set<Id>) {
    && now.Keys == before.Keys
    && (forall id :: id in before ==> now[id].ticker == before[id].ticker && now[id].entity == before[id].entity)
    && OpenIds(now) == OpenIds(before) - closed
  }

  /** `now` is `before` with one position more, open, in a ticker. */
  ghost predicate OpensOne(before: map<Id, Position>, now: map<Id, Position>, entity: string, ticker: string) {
    exists pid :: pid !in before && OpensAt(before, now, entity, ticker, pid)
  }

  ghost predicate OpensAt(before: map<Id, Position>, now: map<Id, Position>, entity: string, ticker: string, pid: Id) {
    && pid in now && now == before[pid := now[pid]]
    && now[pid].entity == entity && now[pid].ticker == ticker && Active(now[pid])
  }

  lemma CloseKeepsSlots(before: map<Id, Position>, now: map<Id, Position>, closed: set<Id>, slots: nat, onePerTicker: bool)
    requires SlotsKept(before, slots, onePerTicker) && Closes(before, now, closed)
    ensures SlotsKept(now, slots, onePerTicker)
    ensures ActiveTickers(now) <= ActiveTickers(before)
    ensures |OpenIds(now)| <= |OpenIds(before)|
    ensures closed * OpenIds(before) != {} ==> |OpenIds(now)| < |OpenIds(before)|
  {
    SubsetSize(OpenIds(now), OpenIds(before));
    if c :| c in closed * OpenIds(before) {
      SubsetSize(OpenIds(now), OpenIds(before) - {c});
    }
    forall id | id in now && Active(now[id]) ensures Active(before[id]) {
      assert id in OpenIds(now);
      assert id in OpenIds(before);
    }
    forall t | t in ActiveTickers(now) ensures t in ActiveTickers(before) {
      var id :| id in now && Active(now[id]) && now[id].ticker == t;
      assert id in OpenIds(now);
      assert id in OpenIds(before);
    }
  }

  lemma {:induction false} SubsetSize<T>(a: set<T>, b: set<T>)
    requires a <= b
    ensures |a| <= |b|
  {
    assert b == a + (b - a);
  }

  lemma OpenKeepsSlots(before: map<Id, Position>, now: map<Id, Position>, entity: string, ticker: string, slots: nat, onePerTicker: bool)
    requires SlotsKept(before, slots, onePerTicker) && OpensOne(before, now, entity, ticker)
    requires |OpenIds(before)| < slots && (onePerTicker ==> ticker !in ActiveTickers(before))
    ensures SlotsKept(now, slots, onePerTicker)
    ensures ActiveTickers(now) == ActiveTickers(before) + {ticker}
    ensures |OpenIds(now)| == |OpenIds(before)| + 1
  {
    var pid :| pid !in before && OpensAt(before, now, entity, ticker, pid);
    OpenIdsAfter(before, pid, now[pid]);
    ActiveTickersStep(before, pid, now[pid]);
    if onePerTicker {
      forall id | id in before && Active(before[id]) ensures before[id].ticker != ticker {
        assert before[id].ticker in ActiveTickers(before);
      }
    }
  }

  lemma OpenIdsAfter(before: map<Id, Position>, pid: Id, p: Position)
    requires pid !in before
    ensures OpenIds(before[pid := p]) == OpenIds(before) + (if Active(p) then {pid} else {})
    ensures pid !in OpenIds(before)
  {
    assert forall id :: id in before ==> before[pid := p][id] == before[id];
  }

  lemma OnePerTickerWithout(positions: map<Id, Position>, id: Id)
    requires OnePerTicker(positions) && id in positions
    ensures var rest := positions - {id};
      OnePerTicker(rest) && (Active(positions[id]) ==> positions[id].ticker !in ActiveTickers(rest))
  {
    var rest := positions - {id};
    forall j | j in rest ensures rest[j] == positions[j] {}
  }

  /** There are never more open tickers than open positions. */
  lemma {:induction false} TickersAtMostPositions(positions: map<Id, Position>)
    ensures |ActiveTickers(positions)| <= |OpenIds(positions)|
    ensures OnePerTicker(positions) ==> |ActiveTickers(positions)| == |OpenIds(positions)|
    decreases |positions|
  {
    if id :| id in positions {
      hide ActiveTickers, OpenIds, OnePerTicker;
      var rest := positions - {id};
      var p := positions[id];
      assert rest[id := p] == positions;
      ActiveTickersStep(rest, id, p);
      OpenIdsAfter(rest, id, p);
      if OnePerTicker(positions) { OnePerTickerWithout(positions, id); }
      TickersAtMostPositions(rest);
    } else {
      assert OpenIds(positions) == {} && ActiveTickers(positions) == {};
    }
  }
}

/** What else keeps ledger and broker in balance over a day, and how the books close. */
module DayBooks {
  import opened Common
  import opened Orders
  import opened Sums
  import opened LedgerSpec
  import opened SimBrokerSpec
  import opened Books

  /** Records that agree on everything the accounting reads. */
  predicate SameBooks(p: Position, q: Position) {
    p.entity == q.entity && p.ticker == q.ticker && p.openShares == q.openShares && p.avg == q.avg && p.pnl == q.pnl
  }

  ghost predicate SameBooksAll(before: map<Id, Position>, now: map<Id, Position>) {
    now.Keys == before.Keys && forall id :: id in before ==> SameBooks(before[id], now[id])
  }

  /** Rewriting fields the accounting does not read keeps the balance. */
  lemma SameBooksSameBalance(s: LedgerState, s': LedgerState, b: BrokerState, initial: real)
    requires Balanced(s, b, initial)
    requires SameBooksAll(s.positions, s'.positions) && s'.intents == s.intents && s'.blocked == s.blocked
    ensures Balanced(s', b, initial)
  {
    hide Sum;
    forall t ensures OpenTotal(s'.positions, t) == OpenTotal(s.positions, t) {
      SumByEqual(s.positions, s'.positions, OpenIn(t), OpenIn(t));
    }
    SumByEqual(s.positions, s'.positions, CostOf(), CostOf());
    SumByEqual(s.positions, s'.positions, PnlOf(), PnlOf());
  }

  /** In balance, both sides count the same in every ticker. */
  lemma BalancedCountsAgree(positions: map<Id, Position>, b: BrokerState, t: string)
    requires SharesAgree(positions, b)
    requires forall id :: id in positions ==> positions[id].openShares == 0 || Active(positions[id])
    ensures LedgerCount(positions, t) == BrokerCount(Holdings(b), t) as real
  {
    hide Sum;
    SumByEqual(positions, positions, OpenIn(t), CountedIn(t));
    assert OpenTotal(positions, t) == Held(b, t) as real;
    NeverOneUnit(positions, t);
  }

  /** A ticker's open units are never exactly one: each position has none or at least two. */
  lemma {:induction false} NeverOneUnit(positions: map<Id, Position>, t: string)
    requires forall id :: id in positions ==> positions[id].openShares == 0 || Active(positions[id])
    ensures OpenTotal(positions, t) == 0.0 || OpenTotal(positions, t) >= 2.0
    decreases |positions|
  {
    if id :| id in positions {
      SumByRemove(positions, id, OpenIn(t));
      NeverOneUnit(positions - {id}, t);
    } else {
      SumByEmpty(positions, OpenIn(t));
    }
  }

  /** A reconcile of balanced books finds nothing, blocks nothing and keeps the balance. */
  lemma ReconcileKeepsBalance(s: LedgerState, b: BrokerState, initial: real)
    requires Balanced(s, b, initial)
    ensures forall t :: t in Listed(s.positions, Holdings(b)) ==> Agrees(s.positions, Holdings(b), t)
    ensures Balanced(Reconciled(s, Holdings(b)), b, initial)
    ensures SameBooksAll(s.positions, Reconciled(s, Holdings(b)).positions)
  {
    hide SharesAgree, MoneyBalances, Mismatched, Listed, LedgerCount, BrokerCount, Agrees, Reconciled;
    NothingMismatched(s.positions, b);
    FlagsKeepBooks(s, Holdings(b));
    SameBooksSameBalance(s, Reconciled(s, Holdings(b)), b, initial);
  }

  lemma NothingMismatched(positions: map<Id, Position>, b: BrokerState)
    requires SharesAgree(positions, b)
    requires forall id :: id in positions ==> positions[id].openShares == 0 || Active(positions[id])
    ensures forall t :: t in Listed(positions, Holdings(b)) ==> Agrees(positions, Holdings(b), t)
    ensures Mismatched(positions, Holdings(b)) == {}
  {
    hide LedgerCount, BrokerCount, Listed, SharesAgree;
    forall t ensures Agrees(positions, Holdings(b), t) { BalancedCountsAgree(positions, b, t); }
  }

  /** A reconcile that finds nothing only rewrites flags, and leaves nothing blocked that was not. */
  lemma FlagsKeepBooks(s: LedgerState, held: map<string, int>)
    requires Mismatched(s.positions, held) == {} && s.blocked == {}
    ensures var s' := Reconciled(s, held);
      SameBooksAll(s.positions, s'.positions) && s'.intents == s.intents && s'.blocked == s.blocked
  {
    hide Listed, Mismatched;
  }

  // ---- closing the books ---------------------------------------------------------

  function ValueOf(marks: string -> real): Position -> real { (p: Position) => Notional(p.openShares, marks(p.ticker)) }

  function SharesByTicker(holdings: map<string, Holding>): map<string, int> { map t | t in holdings :: holdings[t].shares }

  function Worth(units: map<string, int>, marks: string -> real): map<string, real> { map t | t in units :: Notional(units[t], marks(t)) }

  /** What the broker's holdings are worth at the marks. */
  ghost function HoldingsValue(holdings: map<string, Holding>, marks: string -> real): real {
    Sum(Worth(SharesByTicker(holdings), marks))
  }

  function UnitsOf(units: map<string, int>, t: string): int { if t in units then units[t] else 0 }

  lemma NotionalSplits(a: int, b: int, m: real)
    ensures Notional(a - b, m) == Notional(a, m) - Notional(b, m)
  {
    assert Qty(a - b) == Qty(a) - Qty(b);
  }

  /** The open units of each ticker once one position is taken away. */
  lemma UnitsWithout(positions: map<Id, Position>, id: Id, units: map<string, int>, t: string)
    requires id in positions && OpenTotal(positions, t) == UnitsOf(units, t) as real
    ensures var p := positions[id];
      OpenTotal(positions - {id}, t) == UnitsOf(units[p.ticker := UnitsOf(units, p.ticker) - p.openShares], t) as real
  {
    SumByRemove(positions, id, OpenIn(t));
  }

  lemma NothingIsWorthNothing(units: map<string, int>, marks: string -> real)
    requires forall t :: UnitsOf(units, t) == 0
    ensures Sum(Worth(units, marks)) == 0.0
  {
    forall t | t in units ensures Worth(units, marks)[t] == 0.0 {
      assert UnitsOf(units, t) == 0;
    }
    SumZero(Worth(units, marks));
  }

  /** Holdings aggregated by ticker are worth what the positions they aggregate are worth. */
  lemma {:induction false} AggregateValue(positions: map<Id, Position>, units: map<string, int>, marks: string -> real)
    requires forall t :: OpenTotal(positions, t) == UnitsOf(units, t) as real
    ensures Sum(Worth(units, marks)) == SumBy(positions, ValueOf(marks))
    decreases |positions|
  {
    hide Sum, SumBy, Worth, UnitsOf, OpenTotal, Notional;
    if id :| id in positions {
      var p := positions[id];
      var rest := positions - {id};
      var less := units[p.ticker := UnitsOf(units, p.ticker) - p.openShares];
      forall t ensures OpenTotal(rest, t) == UnitsOf(less, t) as real {
        UnitsWithout(positions, id, units, t);
      }
      AggregateValue(rest, less, marks);
      SumByRemove(positions, id, ValueOf(marks));
      WorthDrops(units, p.ticker, p.openShares, marks);
    } else {
      forall t ensures UnitsOf(units, t) == 0 {
        NoneOpen(positions, t);
      }
      NothingIsWorthNothing(units, marks);
      SumByEmpty(positions, ValueOf(marks));
    }
  }

  lemma NoneOpen(positions: map<Id, Position>, t: string)
    requires positions == map[]
    ensures OpenTotal(positions, t) == 0.0
  {
    SumByEmpty(positions, OpenIn(t));
  }

  lemma WorthDrops(units: map<string, int>, t0: string, sold: int, marks: string -> real)
    ensures Sum(Worth(units[t0 := UnitsOf(units, t0) - sold], marks)) == Sum(Worth(units, marks)) - Notional(sold, marks(t0))
  {
    hide Sum;
    var now := UnitsOf(units, t0) - sold;
    SumUpdate(Worth(units, marks), t0, Notional(now, marks(t0)));
    assert Worth(units[t0 := now], marks) == Worth(units, marks)[t0 := Notional(now, marks(t0))];
    NotionalSplits(UnitsOf(units, t0), sold, marks(t0));
  }

  lemma {:induction false} SumZero<K(!new)>(m: map<K, real>)
    requires forall k :: k in m ==> m[k] == 0.0
    ensures Sum(m) == 0.0
    decreases |m|
  {
    if k :| k in m {
      SumRemove(m, k);
      SumZero(m - {k});
    }
  }

  /** Realized profit plus the paper profit of what is still open. */
  function TotalPnl(marks: string -> real): Position -> real {
    (p: Position) => p.pnl + if p.openShares > 0 then Gain(p.openShares, marks(p.ticker), p.avg) else 0.0
  }

  /** The money identity: what the entities made is what the account gained, before commissions. */
  lemma ProfitIsGainBeforeCommissions(s: LedgerState, b: BrokerState, initial: real, marks: string -> real)
    requires Balanced(s, b, initial)
    ensures SumBy(s.positions, TotalPnl(marks)) == b.cash + HoldingsValue(b.holdings, marks) - initial + CommissionsPaid(b)
  {
    hide Sum, SumBy;
    var units := SharesByTicker(b.holdings);
    forall t ensures OpenTotal(s.positions, t) == UnitsOf(units, t) as real {
      assert OpenTotal(s.positions, t) == Held(b, t) as real;
    }
    AggregateValue(s.positions, units, marks);
    PnlSplits(s.positions, marks);
  }

  function PaperValue(marks: string -> real): Position -> real { (p: Position) => ValueOf(marks)(p) + p.pnl }

  lemma PnlSplits(positions: map<Id, Position>, marks: string -> real)
    requires forall id :: id in positions ==> positions[id].openShares >= 0
    ensures SumBy(positions, TotalPnl(marks)) == SumBy(positions, ValueOf(marks)) - OpenCost(positions) + Realized(positions)
  {
    hide Sum, SumBy;
    forall id | id in positions ensures TotalPnl(marks)(positions[id]) == PaperValue(marks)(positions[id]) - CostOf()(positions[id]) {
      PaperProfit(positions[id], marks);
    }
    SumByDifference(positions, PaperValue(marks), CostOf(), TotalPnl(marks));
    SumByDifference(positions, PaperValue(marks), PnlOf(), ValueOf(marks));
  }

  lemma PaperProfit(p: Position, marks: string -> real)
    requires p.openShares >= 0
    ensures TotalPnl(marks)(p) == PaperValue(marks)(p) - CostOf()(p)
  {
    GainSplits(Qty(p.openShares), marks(p.ticker), p.avg);
    assert CostOf()(p) == Qty(p.openShares) * p.avg;
    assert ValueOf(marks)(p) == Qty(p.openShares) * marks(p.ticker);
    if p.openShares == 0 {
      assert Qty(p.openShares) == 0.0;
    }
  }

  lemma GainSplits(q: real, m: real, a: real)
    ensures q * (m - a) == q * m - q * a
  {
  }
}
