/** Ledger and simulated broker side by side: what one trade does to both, and the balances
    every trade keeps. */
module Books {
  import opened Common
  import opened Orders
  import opened Sums
  import opened LedgerSpec
  import opened LedgerFacts
  import opened SimBrokerSpec

  // ---- the balances --------------------------------------------------------------

  /** Between trades no request is half-way, nothing is blocked and no position holds a stray unit. */
  ghost predicate Settled(s: LedgerState) {
    && s.blocked == {}
    && (forall i :: i in s.intents ==> !Unresolved(s.intents[i].status))
    && (forall id :: id in s.positions ==> s.positions[id].ticker != "" && (s.positions[id].openShares == 0 || Active(s.positions[id])))
  }

  /** Per ticker the ledger's open units add up to exactly what the broker holds. */
  ghost predicate SharesAgree(positions: map<Id, Position>, b: BrokerState) {
    && (forall t :: OpenTotal(positions, t) == Held(b, t) as real)
    && (forall t :: t in b.holdings ==> b.holdings[t].shares > 0)
  }

  function CostOf(): Position -> real { (p: Position) => Qty(p.openShares) * p.avg }

  function PnlOf(): Position -> real { (p: Position) => p.pnl }

  ghost function OpenCost(positions: map<Id, Position>): real { SumBy(positions, CostOf()) }

  ghost function Realized(positions: map<Id, Position>): real { SumBy(positions, PnlOf()) }

  /** Cash, open cost and commissions together are the initial capital plus the realized profit. */
  ghost predicate MoneyBalances(positions: map<Id, Position>, b: BrokerState, initial: real) {
    b.cash + OpenCost(positions) + CommissionsPaid(b) == initial + Realized(positions)
  }

  ghost predicate Balanced(s: LedgerState, b: BrokerState, initial: real) {
    Settled(s) && SharesAgree(s.positions, b) && MoneyBalances(s.positions, b, initial)
  }

  // ---- one trade -----------------------------------------------------------------

  /** The position a filled order of `shares` units leaves behind. */
  function Traded(positions: map<Id, Position>, entity: string, ticker: string, side: Side, shares: int, price: real, date: int, pid: Id): Position
    requires shares > EPSILON
    requires pid in positions ==> positions[pid].openShares >= 0
    requires side == Sell ==> pid in positions
  {
    if side == Sell then SellFrom(positions[pid], shares, price)
    else if pid in positions then BuyInto(positions[pid], shares, price).(addBuys := positions[pid].addBuys + 1)
    else BuyInto(NewPosition(entity, ticker, price, date), shares, price)
  }

  /** From `s` to `s'` the ledger booked exactly the fill of one order for `shares` units into position `pid`. */
  ghost predicate BookedFill(s: LedgerState, s': LedgerState, entity: string, ticker: string, side: Side, shares: int, target: Option<Id>, price: real, date: int, pid: Id)
    requires shares > EPSILON
  {
    && price > 0.0
    && (pid in s.positions ==> s.positions[pid].entity == entity && s.positions[pid].ticker == ticker && s.positions[pid].openShares >= 0 && target == Some(pid))
    && (target.Some? ==> pid == target.value)
    && (side == Sell ==> pid in s.positions && shares - s.positions[pid].openShares <= EPSILON)
    && s'.positions == s.positions[pid := Traded(s.positions, entity, ticker, side, shares, price, date, pid)]
  }

  /** Nothing but the intent of this trade changed its standing, and that one is resolved. */
  ghost predicate OthersKept(s: LedgerState, s': LedgerState) {
    && s'.blocked == s.blocked
    && (forall i :: i in s'.intents ==> !Unresolved(s'.intents[i].status) || (i in s.intents && s'.intents[i] == s.intents[i]))
  }

  /** Booking the report of a filled order books exactly its fill. */
  lemma FilledOrderIsBooked(s: LedgerState, iid: Id, o: Order, eid: Id, newId: Id)
    requires iid in s.intents && eid !in s.executions && newId !in s.positions
    requires s.intents[iid].requested == o.shares && o.shares > EPSILON
    requires o.status == Filled && o.filled == o.shares && o.price == o.avg
    requires forall id :: id in s.positions ==> s.positions[id].openShares >= 0
    requires LedgerSpec.RecordExecution(s, iid, o, eid, newId).Ok?
    ensures var i := s.intents[iid];
            var once := LedgerSpec.RecordExecution(s, iid, o, eid, newId).value;
            && eid in once.executions && once.executions[eid].order == o.id && once.executions[eid].position.Some?
            && var pid := once.executions[eid].position.value;
            && BookedFill(s, once, i.entity, i.ticker, i.side, o.shares, i.target, o.avg, o.filledAt, pid)
            && OthersKept(s, once)
  {
    var i := s.intents[iid];
    var recorded := WithExecution(s, iid, o, eid);
    var e := NewExecution(i, iid, o);
    assert o.avg != 0.0;
    FirstFillPrice(e, o);
    var once := WithFill(recorded, eid, e, o, newId);
    assert LedgerSpec.RecordExecution(s, iid, o, eid, newId).value == once;
    var pid := BuyTarget(recorded, e, newId);
    assert once.positions == s.positions[pid := Traded(s.positions, i.entity, i.ticker, i.side, o.shares, o.avg, o.filledAt, pid)];
  }

  /** A rejected order leaves every position alone. */
  lemma RejectedOrderIsRecorded(s: LedgerState, iid: Id, o: Order, eid: Id, newId: Id)
    requires iid in s.intents && eid !in s.executions
    requires o.status == Rejected && o.filled == 0
    ensures var r := LedgerSpec.RecordExecution(s, iid, o, eid, newId);
            r.Ok? && r.value.positions == s.positions && OthersKept(s, r.value)
            && eid in r.value.executions && r.value.executions[eid].order == o.id
  {
  }

  // ---- what a trade keeps --------------------------------------------------------

  /** A position never holds more than the broker holds of its ticker, so a sale of all of it goes through. */
  lemma WholePositionCanBeSold(s: LedgerState, b: BrokerState, pid: Id, price: real, rate: real)
    requires Settled(s) && SharesAgree(s.positions, b) && pid in s.positions
    ensures s.positions[pid].openShares <= Held(b, s.positions[pid].ticker)
    ensures !TurnedDown(b, s.positions[pid].ticker, Sell, s.positions[pid].openShares, price, rate)
  {
    SumByDominates(s.positions, pid, OpenIn(s.positions[pid].ticker));
  }

  /** If one position changes by as many units as the broker's holding of its ticker, both sides still agree. */
  lemma SharesStillAgree(positions: map<Id, Position>, pid: Id, p': Position, b: BrokerState, b': BrokerState)
    requires SharesAgree(positions, b)
    requires pid in positions ==> positions[pid].ticker == p'.ticker
    requires Held(b', p'.ticker) == Held(b, p'.ticker) + p'.openShares - (if pid in positions then positions[pid].openShares else 0)
    requires forall t :: t != p'.ticker ==> Held(b', t) == Held(b, t)
    requires forall t :: t in b'.holdings ==> b'.holdings[t].shares > 0
    ensures SharesAgree(positions[pid := p'], b')
  {
    forall t ensures OpenTotal(positions[pid := p'], t) == Held(b', t) as real {
      SumByUpdate(positions, pid, p', OpenIn(t));
      assert OpenTotal(positions, t) == Held(b, t) as real;
    }
  }

  lemma NetCostAfter(positions: map<Id, Position>, pid: Id, p': Position, cost: Position -> real, pnl: Position -> real)
    ensures SumBy(positions[pid := p'], cost) - SumBy(positions[pid := p'], pnl) ==
              SumBy(positions, cost) - SumBy(positions, pnl) + (cost(p') - pnl(p')) - (if pid in positions then cost(positions[pid]) - pnl(positions[pid]) else 0.0)
  {
    SumByUpdate(positions, pid, p', cost);
    SumByUpdate(positions, pid, p', pnl);
  }

  /** If one position's cost less profit changes by what the cash side loses, the money still balances. */
  lemma MoneyStillBalances(positions: map<Id, Position>, pid: Id, p': Position, b: BrokerState, b': BrokerState, initial: real, paid: real)
    requires MoneyBalances(positions, b, initial)
    requires b'.cash + CommissionsPaid(b') == b.cash + CommissionsPaid(b) - paid
    requires NetCost(p') == (if pid in positions then NetCost(positions[pid]) else 0.0) + paid
    ensures MoneyBalances(positions[pid := p'], b', initial)
  {
    hide Sum, SumBy, Qty;
    NetCostAfter(positions, pid, p', CostOf(), PnlOf());
    assert CostOf()(p') - PnlOf()(p') == NetCost(p');
    if pid in positions {
      assert CostOf()(positions[pid]) - PnlOf()(positions[pid]) == NetCost(positions[pid]);
    }
  }

  lemma BoughtNetCost(positions: map<Id, Position>, entity: string, ticker: string, shares: int, price: real, date: int, pid: Id)
    requires shares > EPSILON && (pid in positions ==> positions[pid].openShares >= 0)
    ensures NetCost(Traded(positions, entity, ticker, Buy, shares, price, date, pid)) ==
              (if pid in positions then NetCost(positions[pid]) else 0.0) + Notional(shares, price)
  {
    if pid in positions {
      BuyCost(positions[pid], shares, price);
    } else {
      BuyCost(NewPosition(entity, ticker, price, date), shares, price);
    }
  }

  lemma BuyKeepsBalance(s: LedgerState, s': LedgerState, b: BrokerState, b': BrokerState, o: Order, initial: real, rate: real,
                        entity: string, ticker: string, shares: int, target: Option<Id>, pid: Id)
    requires Balanced(s, b, initial) && ticker != "" && shares > EPSILON
    requires o.id !in b.orders && o.status == Filled
    requires (b', o) == Submit(b, ticker, Buy, shares, o.avg, rate, o.id, o.filledAt)
    requires BookedFill(s, s', entity, ticker, Buy, shares, target, o.avg, o.filledAt, pid) && OthersKept(s, s')
    ensures Balanced(s', b', initial)
  {
    hide Sum, SumBy;
    var before := if pid in s.positions then s.positions[pid] else NewPosition(entity, ticker, o.avg, o.filledAt);
    var p' := Traded(s.positions, entity, ticker, Buy, shares, o.avg, o.filledAt, pid);
    assert p'.openShares == before.openShares + shares && p'.ticker == ticker;
    SharesStillAgree(s.positions, pid, p', b, b');
    CashMovesByNotional(b, ticker, Buy, shares, o.avg, rate, o.id, o.filledAt);
    BoughtNetCost(s.positions, entity, ticker, shares, o.avg, o.filledAt, pid);
    MoneyStillBalances(s.positions, pid, p', b, b', initial, Notional(shares, o.avg));
  }

  lemma SellKeepsBalance(s: LedgerState, s': LedgerState, b: BrokerState, b': BrokerState, o: Order, initial: real, rate: real,
                         entity: string, ticker: string, target: Option<Id>, pid: Id)
    requires Balanced(s, b, initial)
    requires o.id !in b.orders && o.status == Filled
    requires pid in s.positions && Active(s.positions[pid])
    requires (b', o) == Submit(b, ticker, Sell, s.positions[pid].openShares, o.avg, rate, o.id, o.filledAt)
    requires BookedFill(s, s', entity, ticker, Sell, s.positions[pid].openShares, target, o.avg, o.filledAt, pid) && OthersKept(s, s')
    ensures Balanced(s', b', initial) && s'.positions[pid].openShares == 0
  {
    hide Sum, SumBy;
    var shares := s.positions[pid].openShares;
    var p' := Traded(s.positions, entity, ticker, Sell, shares, o.avg, o.filledAt, pid);
    WholePositionCanBeSold(s, b, pid, o.avg, rate);
    assert SharesAgree(s'.positions, b') by {
      SharesStillAgree(s.positions, pid, p', b, b');
    }
    assert MoneyBalances(s'.positions, b', initial) by {
      CashMovesByNotional(b, ticker, Sell, shares, o.avg, rate, o.id, o.filledAt);
      SellCost(s.positions[pid], shares, o.avg);
      MoneyStillBalances(s.positions, pid, p', b, b', initial, -Notional(shares, o.avg));
    }
  }

  lemma RejectKeepsBalance(s: LedgerState, s': LedgerState, b: BrokerState, b': BrokerState, o: Order, initial: real, rate: real,
                           ticker: string, side: Side, shares: int, price: real)
    requires Balanced(s, b, initial)
    requires o.id !in b.orders && o.status == Rejected
    requires (b', o) == Submit(b, ticker, side, shares, price, rate, o.id, o.filledAt)
    requires s'.positions == s.positions && OthersKept(s, s')
    ensures Balanced(s', b', initial)
  {
    CashMovesByNotional(b, ticker, side, shares, price, rate, o.id, o.filledAt);
  }
}
