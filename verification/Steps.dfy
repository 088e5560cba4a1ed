/** The single trades of a run, the exits of a day, and the buy of one decision. */
module Steps {
  import opened Common
  import opened Orders
  import opened Sums
  import opened LedgerSpec
  import opened EntityLedger
  import opened Market
  import opened SimBrokerSpec
  import opened SimBrokers
  import opened Books
  import opened Trading
  import opened Allocation
  import opened Slots
  import opened DayBooks
  import opened RunSpec
  import ExitPolicy

  // ---- single trades --------------------------------------------------------------

  function CashAfterSale(cash: real, shares: int, price: real, rate: real): real {
    cash + (Notional(shares, price) - Commission(shares, price, rate))
  }

  function CashAfterBuy(cash: real, shares: int, price: real, rate: real): real {
    cash - (Notional(shares, price) + Commission(shares, price, rate))
  }

  /** An order charges its commission when it fills, and nothing when it does not. */
  lemma OrderCharges(s: LedgerState, s': LedgerState, b: BrokerState, b': BrokerState, entity: string, ticker: string, side: Side, shares: int,
                     target: Option<Id>, rate: real, o: Order, pid: Id)
    requires shares > EPSILON && Done(s, s', b, b', entity, ticker, side, shares, target, rate, o, pid)
    ensures CommissionsPaid(b') == CommissionsPaid(b) + (if o.status == Filled then Commission(shares, o.avg, rate) else 0.0)
  {
    hide Sum, SumBy, AfterBuy, AfterSell, TurnedDown, BookedFill, Commission;
    SumByUpdate(b.orders, o.id, o, CommissionOf());
  }

  /** What a completed sale of a whole position means for the books. */
  lemma SaleDone(s: LedgerState, s': LedgerState, b: BrokerState, b': BrokerState, rate: real, o: Order, id: Id, pid: Id, initial: real)
    requires Balanced(s, b, initial) && id in s.positions && Active(s.positions[id])
    requires var p := s.positions[id]; Done(s, s', b, b', p.entity, p.ticker, Sell, p.openShares, Some(id), rate, o, pid)
    ensures o.status == Filled && o.filled == s.positions[id].openShares && o.avg > 0.0
    ensures Balanced(s', b', initial) && s'.positions == s.positions[id := SellFrom(s.positions[id], o.filled, o.avg)]
    ensures Closes(s.positions, s'.positions, {id})
    ensures b'.cash == CashAfterSale(b.cash, o.filled, o.avg, rate)
    ensures rate <= 1.0 && b.cash >= MinR(initial, -CASH_TOLERANCE) ==> b'.cash >= MinR(initial, -CASH_TOLERANCE)
  {
    hide Sum, SumBy;
    var p := s.positions[id];
    WholePositionCanBeSold(s, b, id, o.price, rate);
    SellKeepsBalance(s, s', b, b', o, initial, rate, p.entity, p.ticker, Some(id), id);
    if rate <= 1.0 {
      CashFloor(b, p.ticker, Sell, p.openShares, o.price, rate, o.id, o.filledAt);
    }
  }

  /** What a completed buy means for the books. */
  lemma PurchaseDone(s: LedgerState, s': LedgerState, b: BrokerState, b': BrokerState, rate: real, o: Order, entity: string, ticker: string,
                     shares: int, target: Option<Id>, pid: Id, initial: real)
    requires Balanced(s, b, initial) && shares > EPSILON && ticker != ""
    requires Done(s, s', b, b', entity, ticker, Buy, shares, target, rate, o, pid)
    ensures Balanced(s', b', initial)
    ensures o.status != Filled ==> s'.positions == s.positions && TooDear(b.cash, shares, o.price, rate)
    ensures o.status == Filled ==>
      && !TooDear(b.cash, shares, o.price, rate)
      && Purchased(s.positions, s'.positions, entity, ticker, shares, target, o.avg, o.filledAt, pid)
      && BoughtInto(s.positions, s'.positions, entity, ticker, target, pid)
    ensures b'.cash == if o.status == Filled then CashAfterBuy(b.cash, shares, o.avg, rate) else b.cash
    ensures rate <= 1.0 && b.cash >= MinR(initial, -CASH_TOLERANCE) ==> b'.cash >= MinR(initial, -CASH_TOLERANCE)
  {
    hide Sum, SumBy;
    if o.status == Filled {
      BuyKeepsBalance(s, s', b, b', o, initial, rate, entity, ticker, shares, target, pid);
      FilledInto(s, s', entity, ticker, shares, target, o.avg, o.filledAt, pid);
    } else {
      RejectKeepsBalance(s, s', b, b', o, initial, rate, ticker, Buy, shares, o.price);
    }
    if rate <= 1.0 {
      CashFloor(b, ticker, Buy, shares, o.price, rate, o.id, o.filledAt);
    }
  }

  lemma FilledInto(s: LedgerState, s': LedgerState, entity: string, ticker: string, shares: int, target: Option<Id>, price: real, date: int, pid: Id)
    requires shares > EPSILON && Settled(s)
    requires BookedFill(s, s', entity, ticker, Buy, shares, target, price, date, pid)
    ensures BoughtInto(s.positions, s'.positions, entity, ticker, target, pid)
    ensures Purchased(s.positions, s'.positions, entity, ticker, shares, target, price, date, pid)
  {
  }

  /** The price and date a market order of the day fills at; only read where an order was answered. */
  function QuoteOn(frames: map<string, Frame>, policy: FillPolicy, ticker: string, side: Side, day: int): (real, int) {
    ExecutionPrice(frames, policy, ticker, side, day).GetOr((0.0, 0))
  }

  function SaleRecord(p: Position, quote: (real, int), id: Id): TradeRecord {
    TradeRecord(quote.1, p.entity, p.ticker, Sell, p.openShares, quote.0, id)
  }

  lemma OpenPositionCanTrade(s: LedgerState, id: Id)
    requires Settled(s) && id in s.positions && Active(s.positions[id]) && s.positions[id].entity != ""
    ensures var p := s.positions[id]; CanTrade(s.positions, p.entity, p.ticker, Sell, p.openShares, Some(id))
  {
  }

  /** A sale and its line in the log: a trade when the broker fills it, a rejection when it does not. */
  method SellAndLog(ledger: EntityPositionLedger, broker: SimBroker, result: BacktestResult, id: Id)
    returns (r: Outcome<RunError>, sold: bool, o: Order, ghost pid: Id)
    requires broker.Valid() && Settled(ledger.State()) && id in ledger.positions && Active(ledger.positions[id])
    modifies ledger, broker`cash, broker`holdings, broker`orders, broker`nextId, result`trades, result`rejected
    ensures broker.Valid()
    ensures r.Pass? ==>
      var p := old(ledger.positions[id]);
      && Quoted(broker.frames, broker.policy, p.ticker, Sell, broker.day, o) && sold == (o.status == Filled)
      && Done(old(ledger.State()), ledger.State(), old(broker.State()), broker.State(), p.entity, p.ticker, Sell, p.openShares, Some(id),
              broker.policy.commissionRate, o, pid)
      && result.Logged() == if sold then old(result.Logged()).Traded(TradeRecord(o.filledAt, p.entity, p.ticker, Sell, o.filled, o.avg, id))
                            else old(result.Logged()).TurnedAway(Rejection(broker.day, p.entity, p.ticker, Sell, p.openShares))
    ensures r.Raise? ==> result.Logged() == old(result.Logged())
    ensures var p := old(ledger.positions[id]);
      p.entity != "" && Quotable(broker.frames, broker.policy, p.ticker, Sell, broker.day) ==> r.Pass?
  {
    hide Done, Settled, Quoted, Quotable, CanTrade;
    sold := false;
    ghost var s := ledger.State();
    var p := ledger.positions[id];
    if p.entity != "" { OpenPositionCanTrade(s, id); }
    var traded;
    r, o, traded := Trade(ledger, broker, p.entity, p.ticker, Sell, "exit", p.openShares, Some(id));
    pid := traded;
    if r.Raise? { return; }
    if o.status != Filled {
      result.rejected := result.rejected + [Rejection(broker.day, p.entity, p.ticker, Sell, p.openShares)];
      return;
    }
    sold := true;
    result.trades := result.trades + [TradeRecord(o.filledAt, p.entity, p.ticker, Sell, o.filled, o.avg, id)];
  }

  /** Sell a whole open position. In balanced books the broker always fills it, and no rejection is written down. */
  method SellPosition(ledger: EntityPositionLedger, broker: SimBroker, result: BacktestResult, id: Id, ghost initial: real)
    returns (r: Outcome<RunError>, sold: bool, o: Order)
    requires InOrder(ledger, broker, result, initial) && id in ledger.positions && Active(ledger.positions[id])
    modifies ledger, broker`cash, broker`holdings, broker`orders, broker`nextId, result`trades, result`rejected
    ensures r.Pass? ==>
      var p := old(ledger.positions[id]);
      && InOrder(ledger, broker, result, initial)
      && sold && o.filled == p.openShares && o.avg > 0.0
      && (o.avg, o.filledAt) == QuoteOn(broker.frames, broker.policy, p.ticker, Sell, broker.day)
      && ledger.positions == old(ledger.positions)[id := SellFrom(p, p.openShares, o.avg)]
      && broker.cash == CashAfterSale(old(broker.cash), p.openShares, o.avg, broker.policy.commissionRate)
      && Closes(old(ledger.positions), ledger.positions, {id})
      && result.Logged() == old(result.Logged()).Traded(SaleRecord(p, QuoteOn(broker.frames, broker.policy, p.ticker, Sell, broker.day), id))
    ensures r.Raise? ==> result.Logged() == old(result.Logged())
    ensures var p := old(ledger.positions[id]);
      p.entity != "" && Quotable(broker.frames, broker.policy, p.ticker, Sell, broker.day) ==> r.Pass?
  {
    hide Accounted, CommissionsPaid, Commission, SharesAgree, MoneyBalances, Done, Settled, ExecutionPrice, SellFrom, CashAfterSale, Quotable;
    ghost var s, b := ledger.State(), broker.State();
    ghost var pid, trades, p := 0, result.trades, ledger.positions[id];
    r, sold, o, pid := SellAndLog(ledger, broker, result, id);
    if r.Pass? {
      SaleDone(s, ledger.State(), b, broker.State(), broker.policy.commissionRate, o, id, pid, initial);
      SaleIsAccounted(s, ledger.State(), b, broker.State(), broker.policy.commissionRate, o, id, pid, trades);
    }
  }

  lemma SaleIsAccounted(s: LedgerState, s': LedgerState, b: BrokerState, b': BrokerState, rate: real, o: Order, id: Id, pid: Id, trades: seq<TradeRecord>)
    requires id in s.positions && Active(s.positions[id]) && o.status == Filled && o.filled == s.positions[id].openShares
    requires var p := s.positions[id]; Done(s, s', b, b', p.entity, p.ticker, Sell, p.openShares, Some(id), rate, o, pid)
    requires Accounted(b, trades, rate)
    ensures var p := s.positions[id];
      Accounted(b', trades + [TradeRecord(o.filledAt, p.entity, p.ticker, Sell, o.filled, o.avg, id)], rate)
  {
    hide Done, CommissionsPaid, Commission;
    var p := s.positions[id];
    OrderCharges(s, s', b, b', p.entity, p.ticker, Sell, p.openShares, Some(id), rate, o, pid);
    OneMoreTrade(trades, TradeRecord(o.filledAt, p.entity, p.ticker, Sell, o.filled, o.avg, id), rate);
  }

  /** Buy into the target position, or into a new one. */
  method BuyShares(ledger: EntityPositionLedger, broker: SimBroker, entity: string, ticker: string, purpose: string, shares: int,
                   target: Option<Id>, ghost initial: real)
    returns (r: Outcome<RunError>, o: Order, pid: Id)
    requires InBalance(ledger, broker, initial) && shares > EPSILON
    modifies ledger, broker`cash, broker`holdings, broker`orders, broker`nextId
    ensures r.Pass? ==>
      var quote := QuoteOn(broker.frames, broker.policy, ticker, Buy, broker.day);
      && InBalance(ledger, broker, initial)
      && (o.status == Filled <==> !TooDear(old(broker.cash), shares, quote.0, broker.policy.commissionRate))
      && (o.status == Filled ==>
            && (o.avg, o.filledAt) == quote && o.filled == shares
            && Purchased(old(ledger.positions), ledger.positions, entity, ticker, shares, target, quote.0, quote.1, pid)
            && BoughtInto(old(ledger.positions), ledger.positions, entity, ticker, target, pid))
      && (o.status != Filled ==> ledger.positions == old(ledger.positions))
      && broker.cash == if o.status == Filled then CashAfterBuy(old(broker.cash), shares, quote.0, broker.policy.commissionRate) else old(broker.cash)
    ensures r.Pass? ==>
      CommissionsPaid(broker.State()) == CommissionsPaid(old(broker.State())) + (if o.status == Filled then Commission(shares, o.avg, broker.policy.commissionRate) else 0.0)
    ensures CanTrade(old(ledger.positions), entity, ticker, Buy, shares, target) && Quotable(broker.frames, broker.policy, ticker, Buy, broker.day) ==>
      r.Pass?
  {
    hide SharesAgree, MoneyBalances, Done, Settled, BoughtInto, Purchased, ExecutionPrice, TooDear, Quotable, CanTrade, CashAfterBuy, CommissionsPaid, Commission;
    ghost var s, b := ledger.State(), broker.State();
    r, o, pid := Trade(ledger, broker, entity, ticker, Buy, purpose, shares, target);
    if r.Pass? {
      OrderCharges(s, ledger.State(), b, broker.State(), entity, ticker, Buy, shares, target, broker.policy.commissionRate, o, pid);
      PurchaseDone(s, ledger.State(), b, broker.State(), broker.policy.commissionRate, o, entity, ticker, shares, target, pid, initial);
    }
  }

  /** Rewriting a record's policy fields keeps all balances. */
  method WriteRecord(ledger: EntityPositionLedger, broker: SimBroker, id: Id, p: Position, ghost initial: real)
    requires InBalance(ledger, broker, initial) && id in ledger.positions && SameBooks(ledger.positions[id], p)
    modifies ledger`positions
    ensures InBalance(ledger, broker, initial)
    ensures ledger.positions == old(ledger.positions)[id := p]
  {
    ghost var s := ledger.State();
    ledger.positions := ledger.positions[id := p];
    SameBooksSameBalance(s, ledger.State(), broker.State(), initial);
  }

  // ---- exits ----------------------------------------------------------------------

  function PositionStateOf(p: Position): ExitPolicy.PositionState {
    ExitPolicy.PositionState(p.avg, p.avg, Qty(p.openShares), p.policy.atr, p.policy.stop, p.policy.target,
      p.policy.trailingStop, p.policy.trailingDistance, OrElse(p.high, p.avg), p.policy.maxHoldingDays,
      Some(p.policy.strategy.GetOr(ExitPolicy.Hybrid)), 0, p.addBuys)
  }

  function CopyState(p: Position, s: ExitPolicy.PositionState): Position {
    p.(policy := PolicyFields(s.atr, s.stop, s.target, s.trailingStop, s.trailingDistance, s.maxHoldingDays, s.strategy),
       high := s.highest, addBuys := if s.addBuyCount != 0 then s.addBuyCount else p.addBuys)
  }

  function SnapshotAt(f: Frame, i: nat): ExitPolicy.PriceSnapshot
    requires i < |f|
  {
    ExitPolicy.PriceSnapshot(Some(f[i].open), Some(f[i].high), Some(f[i].low), Some(f[i].close), None,
      if i + 1 < |f| then Some(f[i + 1].open) else None)
  }

  function HoldingDays(f: Frame, entryDate: int, i: nat): int {
    match RowOn(f, entryDate, 0)
    case None => i
    case Some(e) => Max(0, i - e)
  }

  function ExitConfig(rb: ExitPolicy.Rulebook, omen: Option<real>): ExitPolicy.ExecutionConfig {
    ExitPolicy.ExecutionConfig(ExitPolicy.Base, 5.0, 25.0, true, 2, 0.0, None, None, None,
      Some(rb.sellOmenEnabled.GetOr(false)), omen, rb.sellOmenThreshold, false)
  }

  function ExitContext(days: int): ExitPolicy.MarketContext { ExitPolicy.MarketContext(50.0, 18.0, Some(days)) }

  function ExitDecisionFor(p: Position, f: Frame, i: nat, rb: ExitPolicy.Rulebook): ExitPolicy.ExitDecision
    requires i < |f|
  {
    ExitPolicy.EvaluateExit(PositionStateOf(p), SnapshotAt(f, i), rb, ExitContext(HoldingDays(f, p.entryDate, i)), ExitConfig(rb, f[i].omen))
  }

  /** The exit policy's verdict on a position at today's bar; None when its entity or the bar is missing. */
  function Verdict(p: Position, frames: map<string, Frame>, day: int, setup: Setup): Option<ExitPolicy.ExitDecision> {
    if p.entity !in setup.entities || p.ticker !in frames then None
    else match RowOn(frames[p.ticker], day, 0)
         case None => None
         case Some(i) => Some(ExitDecisionFor(p, frames[p.ticker], i, setup.entities[p.entity].rulebook))
  }

  predicate MustExit(p: Position, frames: map<string, Frame>, day: int, setup: Setup) {
    var verdict := Verdict(p, frames, day, setup);
    verdict.Some? && verdict.value.ShouldExit()
  }

  /** An open position after the exits of the day: sold, carried on with the policy's new state, or left as it was. */
  function AfterExit(p: Position, frames: map<string, Frame>, policy: FillPolicy, day: int, setup: Setup): Position {
    match Verdict(p, frames, day, setup)
    case None => p
    case Some(verdict) =>
      var q := CopyState(p, verdict.updated);
      if verdict.ShouldExit() then SellFrom(q, q.openShares, QuoteOn(frames, policy, p.ticker, Sell, day).0) else q
  }

  /** Judge one open position on today's bar; sell it when it must go. */
  method ProcessExit(day: int, setup: Setup, ledger: EntityPositionLedger, broker: SimBroker, result: BacktestResult, id: Id, ghost initial: real)
    returns (r: Outcome<RunError>, sold: bool)
    requires InOrder(ledger, broker, result, initial) && id in ledger.positions && Active(ledger.positions[id]) && broker.day == day
    modifies ledger, broker`cash, broker`holdings, broker`orders, broker`nextId, result`trades, result`rejected
    ensures r.Pass? ==>
      var p := old(ledger.positions[id]);
      && InOrder(ledger, broker, result, initial)
      && sold == MustExit(p, broker.frames, day, setup)
      && ledger.positions == old(ledger.positions)[id := AfterExit(p, broker.frames, broker.policy, day, setup)]
      && result.Logged() == if sold then old(result.Logged()).Traded(SaleRecord(p, QuoteOn(broker.frames, broker.policy, p.ticker, Sell, day), id))
                            else old(result.Logged())
    ensures r.Raise? ==> result.Logged() == old(result.Logged())
    ensures Sound(old(ledger.positions), day, setup, broker.frames, broker.policy) ==> r.Pass?
  {
    hide Balanced, Accounted, ExitPolicy.EvaluateExit, ExecutionPrice, SellFrom, Closes, Sound, Quotable;
    r, sold := Pass, false;
    var p := ledger.positions[id];
    assert ledger.positions == ledger.positions[id := p];
    if Sound(ledger.positions, day, setup, broker.frames, broker.policy) { PositionCanBeSold(ledger.positions, id, day, setup, broker.frames, broker.policy); }
    if p.entity !in setup.entities { return; }
    if p.ticker !in broker.frames { return Raise(MissingPrice), false; }
    var frame, rb := broker.frames[p.ticker], setup.entities[p.entity].rulebook;
    var row := RowOn(frame, day, 0);
    if row.None? { return; }
    var decision := ExitDecisionFor(p, frame, row.value, rb);
    WriteRecord(ledger, broker, id, CopyState(p, decision.updated), initial);
    if !decision.ShouldExit() { return; }
    var o;
    r, sold, o := SellPosition(ledger, broker, result, id, initial);
  }

  /** The exits of the day close exactly the positions that must go, and change no owner. */
  lemma ExitsClose(start: map<Id, Position>, now: map<Id, Position>, frames: map<string, Frame>, policy: FillPolicy, day: int, setup: Setup)
    requires now == map id | id in start :: if Active(start[id]) then AfterExit(start[id], frames, policy, day, setup) else start[id]
    ensures Closes(start, now, set id | id in start && Active(start[id]) && MustExit(start[id], frames, day, setup))
  {
    hide ExitPolicy.EvaluateExit, QuoteOn;
  }

  ghost function SaleRecords(positions: map<Id, Position>, ids: seq<Id>, frames: map<string, Frame>, policy: FillPolicy, day: int): seq<TradeRecord>
    requires forall id :: id in ids ==> id in positions
  {
    seq(|ids|, i requires 0 <= i < |ids| => SaleRecord(positions[ids[i]], QuoteOn(frames, policy, positions[ids[i]].ticker, Sell, day), ids[i]))
  }

  lemma OneMoreSale(positions: map<Id, Position>, ids: seq<Id>, id: Id, frames: map<string, Frame>, policy: FillPolicy, day: int)
    requires id in positions && forall i :: i in ids ==> i in positions
    ensures SaleRecords(positions, ids + [id], frames, policy, day)
         == SaleRecords(positions, ids, frames, policy, day) + [SaleRecord(positions[id], QuoteOn(frames, policy, positions[id].ticker, Sell, day), id)]
  {
    hide QuoteOn;
  }

  /** The exits of the positions in `done`: each as the policy says, `gone` are those sold. */
  ghost predicate Exited(start: map<Id, Position>, now: map<Id, Position>, done: seq<Id>, gone: seq<Id>,
                         frames: map<string, Frame>, policy: FillPolicy, day: int, setup: Setup)
  {
    && (forall id :: id in done ==> id in start)
    && now == (map id | id in start :: if id in done then AfterExit(start[id], frames, policy, day, setup) else start[id])
    && (forall id :: id in gone <==> id in done && MustExit(start[id], frames, day, setup))
    && (forall i, j :: 0 <= i < j < |gone| ==> gone[i] != gone[j])
  }

  lemma OneMoreExit(start: map<Id, Position>, before: map<Id, Position>, done: seq<Id>, gone: seq<Id>, id: Id,
                    frames: map<string, Frame>, policy: FillPolicy, day: int, setup: Setup)
    requires Exited(start, before, done, gone, frames, policy, day, setup) && id in start && id !in done
    ensures id in before && before[id] == start[id]
    ensures Exited(start, before[id := AfterExit(start[id], frames, policy, day, setup)], done + [id],
                   if MustExit(start[id], frames, day, setup) then gone + [id] else gone, frames, policy, day, setup)
  {
    hide AfterExit, MustExit;
    var after := if MustExit(start[id], frames, day, setup) then gone + [id] else gone;
    forall i ensures i in after <==> i in done + [id] && MustExit(start[i], frames, day, setup) {}
  }

  /** After the exits every slot rule still holds. */
  lemma ExitedKeepsSlots(start: map<Id, Position>, now: map<Id, Position>, ids: seq<Id>, gone: seq<Id>,
                         frames: map<string, Frame>, policy: FillPolicy, day: int, setup: Setup)
    requires Exited(start, now, ids, gone, frames, policy, day, setup) && SlotsOf(start, setup)
    requires forall id :: id in ids <==> id in OpenIds(start)
    ensures SlotsOf(now, setup)
    ensures now == (map id | id in start :: if Active(start[id]) then AfterExit(start[id], frames, policy, day, setup) else start[id])
    ensures forall id :: id in gone <==> id in start && Active(start[id]) && MustExit(start[id], frames, day, setup)
    ensures forall i, j :: 0 <= i < j < |gone| ==> gone[i] != gone[j]
  {
    hide AfterExit, MustExit;
    assert forall id :: id in OpenIds(start) <==> id in start && Active(start[id]);
    ExitsClose(start, now, frames, policy, day, setup);
    var closed := set id | id in start && Active(start[id]) && MustExit(start[id], frames, day, setup);
    CloseKeepsSlots(start, now, closed, MaxSlots(setup.params), OneTickerEach(setup));
  }

  lemma ExitedStaysSound(start: map<Id, Position>, now: map<Id, Position>, ids: seq<Id>, gone: seq<Id>,
                         frames: map<string, Frame>, policy: FillPolicy, day: int, setup: Setup)
    requires Exited(start, now, ids, gone, frames, policy, day, setup) && Sound(start, day, setup, frames, policy)
    ensures Sound(now, day, setup, frames, policy)
  {
    hide MustExit, ExitPolicy.EvaluateExit, QuoteOn, CompleteDay;
  }

  lemma NothingExited(start: map<Id, Position>, frames: map<string, Frame>, policy: FillPolicy, day: int, setup: Setup)
    ensures Exited(start, start, [], [], frames, policy, day, setup)
  {
    hide AfterExit, MustExit;
  }

  /** The exits: every open position ends as its verdict says, and the sales are written down. */
  ghost predicate ExitsAsSpecified(gone: seq<Id>, a: Stage, b: Stage, today: Today) {
    var Today(day, setup, frames, policy) := today;
    && (forall id :: id in gone <==> id in a.positions && Active(a.positions[id]) && MustExit(a.positions[id], frames, day, setup))
    && (forall i, j :: 0 <= i < j < |gone| ==> gone[i] != gone[j])
    && b.log == a.log.(trades := a.log.trades + SaleRecords(a.positions, gone, frames, policy, day))
    && b.positions == (map id | id in a.positions :: if Active(a.positions[id]) then AfterExit(a.positions[id], frames, policy, day, setup) else a.positions[id])
  }

  /** Judge every open position on today's bar. */
  method ProcessExits(day: int, setup: Setup, ledger: EntityPositionLedger, broker: SimBroker, result: BacktestResult, ghost initial: real)
    returns (r: Outcome<RunError>, ghost gone: seq<Id>)
    requires InOrder(ledger, broker, result, initial) && SlotsOf(ledger.positions, setup) && broker.day == day
    modifies ledger, broker`cash, broker`holdings, broker`orders, broker`nextId, result`trades, result`rejected
    ensures r.Pass? ==>
      && InOrder(ledger, broker, result, initial) && SlotsOf(ledger.positions, setup)
      && ExitsAsSpecified(gone, old(At(ledger, broker, result)), At(ledger, broker, result), With(day, setup, broker))
    ensures result.rejected == old(result.rejected)
    ensures Sound(old(ledger.positions), day, setup, broker.frames, broker.policy) ==>
      r.Pass? && Sound(ledger.positions, day, setup, broker.frames, broker.policy)
  {
    hide Balanced, Accounted, SlotsKept, AfterExit, MustExit, QuoteOn, SaleRecords, Exited, OpenIds, Sound;
    var ids := ledger.OpenPositions();
    gone := [];
    ghost var start := ledger.positions;
    NothingExited(start, broker.frames, broker.policy, day, setup);
    NoSale(start, broker.frames, broker.policy, day);
    for k := 0 to |ids|
      invariant InOrder(ledger, broker, result, initial)
      invariant Exited(start, ledger.positions, ids[..k], gone, broker.frames, broker.policy, day, setup)
      invariant forall id :: id in gone ==> id in start
      invariant result.rejected == old(result.rejected)
      invariant result.trades == old(result.trades) + SaleRecords(start, gone, broker.frames, broker.policy, day)
    {
      assert ids[k] in ids && ids[k] !in ids[..k];
      assert ids[..k + 1] == ids[..k] + [ids[k]];
      OpenIsActive(start, ids[k]);
      if Sound(start, day, setup, broker.frames, broker.policy) {
        ExitedStaysSound(start, ledger.positions, ids[..k], gone, broker.frames, broker.policy, day, setup);
      }
      OneMoreExit(start, ledger.positions, ids[..k], gone, ids[k], broker.frames, broker.policy, day, setup);
      OneMoreSale(start, gone, ids[k], broker.frames, broker.policy, day);
      var sold;
      r, sold := ProcessExit(day, setup, ledger, broker, result, ids[k], initial);
      if r.Raise? { return; }
      if sold { gone := gone + [ids[k]]; }
    }
    assert ids[..|ids|] == ids;
    if Sound(start, day, setup, broker.frames, broker.policy) {
      ExitedStaysSound(start, ledger.positions, ids, gone, broker.frames, broker.policy, day, setup);
    }
    ExitedKeepsSlots(start, ledger.positions, ids, gone, broker.frames, broker.policy, day, setup);
    r := Pass;
  }

  lemma OpenIsActive(positions: map<Id, Position>, id: Id)
    requires id in OpenIds(positions)
    ensures id in positions && Active(positions[id])
  {
  }

  lemma NoSale(positions: map<Id, Position>, frames: map<string, Frame>, policy: FillPolicy, day: int)
    ensures SaleRecords(positions, [], frames, policy, day) == []
  {
  }

  // ---- buys -----------------------------------------------------------------------

  function CloseOn(frames: map<string, Frame>, ticker: string, day: int): real {
    if ticker !in frames then 0.0
    else match RowOn(frames[ticker], day, 0)
         case None => 0.0
         case Some(i) => frames[ticker][i].close
  }

  /** As many of the requested units as the cash, less its buffer, can pay for at today's close. */
  function CashCappedShares(cash: real, requested: int, close: real, bufferRatio: real): (shares: int)
    ensures 0 <= shares && (shares > 0 ==> MIN_ORDER_SHARES < shares <= requested)
  {
    if requested <= 0 || close <= 0.0 then 0
    else
      var affordable := cash * CashUseRatio(bufferRatio) / close;
      var capped := Units(MinR(Qty(requested), affordable));
      assert capped <= requested by {
        assert MinR(Qty(requested), affordable) * 1_000_000.0 <= requested as real;
      }
      if capped > MIN_ORDER_SHARES then capped else 0
  }

  /** Fill in a fresh record from the rulebook of its entity. */
  function InitialRecord(p: Position, rb: ExitPolicy.Rulebook, shares: int, price: real, atr: real): Position {
    CopyState(p, ExitPolicy.InitializePositionState(price, Qty(shares), rb, if atr <= 0.0 then price * 0.02 else atr, ExitContext(0)))
  }

  function AtrOn(frames: map<string, Frame>, ticker: string, day: int): real {
    if ticker !in frames then 0.0
    else match RowOn(frames[ticker], day, 0)
         case None => 0.0
         case Some(i) => frames[ticker][i].atr
  }

  /** The units a decision buys with the cash at hand. */
  function AffordedShares(d: BuyDecision, cash: real, frames: map<string, Frame>, day: int, params: Params): int {
    CashCappedShares(cash, d.shares, CloseOn(frames, d.ticker, day), params.cashBufferRatio)
  }

  /** A bought position as it is recorded: a first entry gets the policy fields of its rulebook. */
  function Entered(p: Position, d: BuyDecision, rb: ExitPolicy.Rulebook, shares: int, price: real, atr: real): Position {
    if d.purpose == "entry" then InitialRecord(p, rb, shares, price, atr) else p
  }

  /** `shares` units were bought into position `pid`: the one aimed at, or a new one. */
  ghost predicate BoughtAs(d: BuyDecision, shares: int, rb: ExitPolicy.Rulebook, quote: (real, int), atr: real,
                         before: map<Id, Position>, now: map<Id, Position>, pid: Id)
    requires shares > EPSILON
  {
    && (if d.target.Some? then pid == d.target.value else pid !in before)
    && (pid in before ==> before[pid].entity == d.entity && before[pid].ticker == d.ticker && before[pid].openShares >= 0)
    && now == before[pid := Entered(Traded(before, d.entity, d.ticker, Buy, shares, quote.0, quote.1, pid), d, rb, shares, quote.0, atr)]
  }

  /** A decision was carried out: capped by the cash, then filled whole, or turned down and written down as such. */
  ghost predicate CarriedOut(d: BuyDecision, a: Stage, b: Stage, today: Today) {
    var Today(day, setup, frames, policy) := today;
    var shares := AffordedShares(d, a.cash, frames, day, setup.params);
    var quote := QuoteOn(frames, policy, d.ticker, Buy, day);
    && d.entity in setup.entities
    && if shares <= MIN_ORDER_SHARES then b == a.(log := a.log.TurnedAway(Rejection(day, d.entity, d.ticker, Buy, d.shares)))
       else if TooDear(a.cash, shares, quote.0, policy.commissionRate) then
         b == a.(log := a.log.TurnedAway(Rejection(day, d.entity, d.ticker, Buy, shares)))
       else exists pid ::
         && BoughtAs(d, shares, setup.entities[d.entity].rulebook, quote, AtrOn(frames, d.ticker, day), a.positions, b.positions, pid)
         && b.cash == CashAfterBuy(a.cash, shares, quote.0, policy.commissionRate)
         && b.log == a.log.Traded(TradeRecord(quote.1, d.entity, d.ticker, Buy, shares, quote.0, pid))
  }

  /** Carry out a decision. */
  method ExecuteBuy(day: int, d: BuyDecision, setup: Setup, ledger: EntityPositionLedger, broker: SimBroker,
                    result: BacktestResult, ghost initial: real)
    returns (r: Outcome<RunError>)
    requires InOrder(ledger, broker, result, initial) && result.OnlyBuysRejected() && broker.day == day && d.entity in setup.entities
    modifies ledger, broker`cash, broker`holdings, broker`orders, broker`nextId, result`trades, result`rejected
    ensures result.OnlyBuysRejected()
    ensures r.Pass? ==>
      && InOrder(ledger, broker, result, initial)
      && CarriedOut(d, old(At(ledger, broker, result)), At(ledger, broker, result), With(day, setup, broker))
      && BuyOutcome(old(ledger.positions), ledger.positions, d.entity, d.ticker, d.target)
      && OwnersKept(old(ledger.positions), ledger.positions)
    ensures Sound(old(ledger.positions), day, setup, broker.frames, broker.policy) && Placeable(d, old(ledger.positions), setup) ==>
      r.Pass? && Sound(ledger.positions, day, setup, broker.frames, broker.policy)
  {
    hide CommissionsPaid, CommissionsIn, Commission, SharesAgree, MoneyBalances, Settled, ExecutionPrice, TooDear, CashCappedShares, AtrOn;
    hide CloseOn, QuoteOn, Sound, Placeable, CanTrade, Quotable, OwnersKept, CashAfterBuy;
    var rb := setup.entities[d.entity].rulebook;
    NothingBought(ledger.positions, d.entity, d.ticker, d.target);
    var shares := AffordedShares(d, broker.cash, broker.frames, day, setup.params);
    if shares <= MIN_ORDER_SHARES {
      result.rejected := result.rejected + [Rejection(day, d.entity, d.ticker, Buy, d.shares)];
      return Pass;
    }
    ghost var start := ledger.positions;
    if Sound(ledger.positions, day, setup, broker.frames, broker.policy) && Placeable(d, start, setup) {
      DecisionCanTrade(d, shares, start, day, setup, broker.frames, broker.policy);
    }
    var o, pid;
    r, o, pid := BuyShares(ledger, broker, d.entity, d.ticker, d.purpose, shares, d.target, initial);
    if r.Raise? { return; }
    if o.status != Filled {
      result.rejected := result.rejected + [Rejection(day, d.entity, d.ticker, Buy, shares)];
      return;
    }
    if d.purpose == "entry" {
      WriteRecord(ledger, broker, pid, InitialRecord(ledger.positions[pid], rb, o.filled, o.avg, AtrOn(broker.frames, d.ticker, day)), initial);
    }
    assert BoughtInto(start, ledger.positions, d.entity, d.ticker, d.target, pid);
    BuyKeepsSound(start, ledger.positions, d.entity, d.ticker, d.target, day, setup, broker.frames, broker.policy);
    DecisionIsOfEntity(d, start, setup);
    OneMoreTrade(result.trades, TradeRecord(o.filledAt, d.entity, d.ticker, Buy, o.filled, o.avg, pid), broker.policy.commissionRate);
    result.trades := result.trades + [TradeRecord(o.filledAt, d.entity, d.ticker, Buy, o.filled, o.avg, pid)];
    assert BoughtAs(d, shares, rb, QuoteOn(broker.frames, broker.policy, d.ticker, Buy, day), AtrOn(broker.frames, d.ticker, day), start, ledger.positions, pid);
  }

  lemma NothingBought(positions: map<Id, Position>, entity: string, ticker: string, target: Option<Id>)
    ensures BuyOutcome(positions, positions, entity, ticker, target) && OwnersKept(positions, positions)
  {
  }

  lemma DecisionIsOfEntity(d: BuyDecision, positions: map<Id, Position>, setup: Setup)
    ensures Placeable(d, positions, setup) ==> IsEntity(d.entity, d.ticker, setup)
  {
  }
}
