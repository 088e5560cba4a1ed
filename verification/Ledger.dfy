/** Orders as a broker reports them. */
module Orders {
  type Id = nat

  datatype Side = Buy | Sell

  datatype OrderStatus = Filled | Partial | Pending | Rejected | Failed | Cancelled

  /** `filled` is cumulative; `avg` is the average price of everything filled so far. */
  datatype Order = Order(
    id: Id, ticker: string, side: Side, shares: int, price: real,
    status: OrderStatus, filled: int, avg: real, commission: real, filledAt: int)
}

/** The records of the entity ledger and what each ledger operation does to them.

    `LedgerState` is the value of a ledger; the functions of this module are the specification
    the class `EntityPositionLedger` is proved against. */
module LedgerSpec {
  import opened Common
  import opened Orders
  import opened Sums
  import ExitPolicy

  /** Fill deltas and open shares of at most one unit (10^-6 share) count as nothing. */
  const EPSILON: int := 1

  datatype PositionStatus = Open | Closed

  datatype Position = Position(
    entity: string, ticker: string, status: PositionStatus,
    openedShares: int, closedShares: int, openShares: int, avg: real, pnl: real,
    high: real, low: real, addBuys: int, reconcileBlocked: bool, entryDate: int, policy: PolicyFields)

  /** The exit-policy fields of a record. */
  datatype PolicyFields = PolicyFields(
    atr: real, stop: real, target: real, trailingStop: real, trailingDistance: real,
    maxHoldingDays: int, strategy: Option<ExitPolicy.Strategy>)

  const NoPolicy: PolicyFields := PolicyFields(0.0, 0.0, 0.0, 0.0, 0.0, 0, None)

  datatype State = OpenState | FilledState | PartialState | PendingState | RejectedState | FailedState | CancelledState

  datatype Execution = Execution(
    intent: Id, position: Option<Id>, entity: string, ticker: string, side: Side, purpose: string,
    order: Id, requested: int, applied: int, filled: int, avg: real, state: State)

  datatype Intent = Intent(
    entity: string, ticker: string, side: Side, purpose: string, target: Option<Id>,
    requested: int, status: State, execution: Option<Id>)

  datatype LedgerState = LedgerState(
    positions: map<Id, Position>, executions: map<Id, Execution>, intents: map<Id, Intent>, blocked: set<string>)

  datatype LedgerError =
    | EntityRequired | TickerRequired | SharesMustBePositive | ReconcileBlocked | SellNeedsTarget
    | IntentNotFound | ExecutionNotFound | PriceRequired | NoTargetPosition | TargetMismatch
    | SellExceedsOpen | NonPositiveOpen

  const EmptyLedger: LedgerState := LedgerState(map[], map[], map[], {})

  // ---- intents -------------------------------------------------------------------

  predicate Unresolved(s: State) { s in {OpenState, PendingState, PartialState} }

  /** An intent already on its way for the same entity, ticker, side, purpose and target. */
  predicate SameRequest(i: Intent, entity: string, ticker: string, side: Side, purpose: string, target: Option<Id>) {
    i.entity == entity && i.ticker == ticker && i.side == side && i.purpose == purpose &&
    Unresolved(i.status) && i.target == target
  }

  /** The first complaint `open_intent` has about its arguments. */
  function IntentComplaint(s: LedgerState, entity: string, ticker: string, side: Side, shares: int, target: Option<Id>): Option<LedgerError> {
    if entity == "" then Some(EntityRequired)
    else if ticker == "" then Some(TickerRequired)
    else if shares <= EPSILON then Some(SharesMustBePositive)
    else if ticker in s.blocked then Some(ReconcileBlocked)
    else if side == Sell && target.None? then Some(SellNeedsTarget)
    else None
  }

  // ---- fills ---------------------------------------------------------------------

  function NewPosition(entity: string, ticker: string, price: real, date: int): Position {
    Position(entity, ticker, Open, 0, 0, 0, 0.0, 0.0, price, price, 0, false, date, NoPolicy)
  }

  function Lower(low: real, price: real): real { if low <= 0.0 then price else MinR(low, price) }

  /** Profit of selling `sold` units at `price` that cost `avg`. */
  function Gain(sold: int, price: real, avg: real): real { Qty(sold) * (price - avg) }

  /** What the units beyond `applied` cost on average, given both cumulative averages. */
  function SplitPrice(filled: int, avg: real, applied: int, appliedAvg: real): real
    requires filled != applied
  {
    (Qty(filled) * avg - Qty(applied) * appliedAvg) / Qty(filled - applied)
  }

  /** A position after buying `delta` units more at `price`. */
  function BuyInto(p: Position, delta: int, price: real): Position
    requires p.openShares + delta > EPSILON
  {
    var open := p.openShares + delta;
    p.(avg := BlendedAvg(p.openShares, p.avg, delta, price),
       openedShares := p.openedShares + delta, openShares := open, status := Open,
       high := MaxR(p.high, price), low := Lower(p.low, price))
  }

  /** A position after selling `delta` units at `price`; a residue of one unit is dropped. */
  function SellFrom(p: Position, delta: int, price: real): Position {
    var sold := Min(delta, p.openShares);
    var rest := p.openShares - sold;
    p.(closedShares := p.closedShares + sold,
       openShares := if rest <= EPSILON then 0 else rest,
       status := if rest <= EPSILON then Closed else p.status,
       pnl := p.pnl + Gain(sold, price, p.avg),
       high := MaxR(p.high, price), low := Lower(p.low, price))
  }

  function StateOf(status: OrderStatus): State {
    match status
    case Filled => FilledState
    case Partial => PartialState
    case Pending => PendingState
    case Rejected => RejectedState
    case Failed => FailedState
    case Cancelled => CancelledState
  }

  /** The average price an order stands for once missing prices are filled in. */
  function CumulativeAvg(e: Execution, o: Order): real { OrElse(OrElse(o.avg, e.avg), o.price) }

  /** The price of the newly filled part, recovered from the two cumulative averages. */
  function DeltaPrice(e: Execution, o: Order): real
    requires o.filled > e.applied
  {
    var avg := CumulativeAvg(e, o);
    var p := SplitPrice(o.filled, avg, e.applied, e.avg);
    if p <= 0.0 then avg else p
  }

  /** Record the order's state on the execution and its intent. */
  function WithOrderState(s: LedgerState, eid: Id, e: Execution, o: Order): LedgerState {
    var state := StateOf(o.status);
    var intents := if e.intent in s.intents
      then s.intents[e.intent := s.intents[e.intent].(status := state, execution := if state == FilledState then Some(eid) else s.intents[e.intent].execution)]
      else s.intents;
    s.(executions := s.executions[eid := e.(state := state)], intents := intents)
  }

  /** A poll that brings nothing to apply. */
  function WithoutFill(s: LedgerState, eid: Id, e: Execution, o: Order): LedgerState {
    WithOrderState(s, eid, e.(filled := o.filled, avg := OrElse(o.avg, e.avg)), o)
  }

  /** The position a buy fill goes to: the one the execution names, else a new one. */
  function BuyTarget(s: LedgerState, e: Execution, newId: Id): Id { e.position.GetOr(newId) }

  /** The complaint `apply_fill` has about a fill of `delta` units. */
  function FillComplaint(s: LedgerState, e: Execution, o: Order, delta: int): Option<LedgerError>
    requires delta == o.filled - e.applied && delta > EPSILON
  {
    if DeltaPrice(e, o) <= 0.0 then Some(PriceRequired)
    else if e.side == Buy then
      if e.position.Some? && e.position.value in s.positions then
        var p := s.positions[e.position.value];
        if p.entity != e.entity || p.ticker != e.ticker then Some(TargetMismatch)
        else if p.openShares + delta <= EPSILON then Some(NonPositiveOpen)
        else None
      else None
    else
      if e.position.None? || e.position.value !in s.positions then Some(NoTargetPosition)
      else
        var p := s.positions[e.position.value];
        if p.entity != e.entity || p.ticker != e.ticker then Some(TargetMismatch)
        else if delta - p.openShares > EPSILON then Some(SellExceedsOpen)
        else None
  }

  /** The position a fill leaves behind. */
  function PositionAfterFill(s: LedgerState, e: Execution, o: Order): Position
    requires o.filled - e.applied > EPSILON
    requires FillComplaint(s, e, o, o.filled - e.applied).None?
  {
    var delta, price := o.filled - e.applied, DeltaPrice(e, o);
    if e.side == Sell then SellFrom(s.positions[e.position.value], delta, price)
    else if e.position.Some? && e.position.value in s.positions then
      var p := BuyInto(s.positions[e.position.value], delta, price);
      p.(addBuys := p.addBuys + 1)
    else BuyInto(NewPosition(e.entity, e.ticker, price, o.filledAt), delta, price)
  }

  /** The ledger after a fill is booked. */
  function WithFill(s: LedgerState, eid: Id, e: Execution, o: Order, newId: Id): LedgerState
    requires o.filled - e.applied > EPSILON
    requires FillComplaint(s, e, o, o.filled - e.applied).None?
  {
    var pid := BuyTarget(s, e, newId);
    var isNew := pid !in s.positions;
    var intents := if isNew && e.intent in s.intents then s.intents[e.intent := s.intents[e.intent].(target := Some(pid))] else s.intents;
    WithOrderState(s.(positions := s.positions[pid := PositionAfterFill(s, e, o)], intents := intents), eid,
                   e.(position := Some(pid), applied := o.filled, filled := o.filled, avg := CumulativeAvg(e, o)), o)
  }

  /** `apply_fill`: book what the order has filled beyond what was already applied. */
  function ApplyFill(s: LedgerState, eid: Id, o: Order, newId: Id): Result<LedgerState, LedgerError> {
    if eid !in s.executions then Err(ExecutionNotFound)
    else
      var e := s.executions[eid];
      if o.filled - e.applied <= EPSILON then Ok(WithoutFill(s, eid, e, o))
      else
        match FillComplaint(s, e, o, o.filled - e.applied)
        case Some(error) => Err(error)
        case None => Ok(WithFill(s, eid, e, o, newId))
  }

  // ---- dispatch ------------------------------------------------------------------

  function NewExecution(i: Intent, iid: Id, o: Order): Execution {
    Execution(iid, i.target, i.entity, i.ticker, i.side, i.purpose, o.id, i.requested, 0, o.filled, o.avg, StateOf(o.status))
  }

  /** The ledger once the order of an intent is on record, before any fill is booked. */
  function WithExecution(s: LedgerState, iid: Id, o: Order, eid: Id): LedgerState
    requires iid in s.intents
  {
    var i := s.intents[iid];
    s.(executions := s.executions[eid := NewExecution(i, iid, o)],
       intents := s.intents[iid := i.(execution := Some(eid), status := StateOf(o.status))])
  }

  /** The part of `dispatch_execution` after the broker answered: record, then book an immediate fill. */
  function RecordExecution(s: LedgerState, iid: Id, o: Order, eid: Id, newId: Id): Result<LedgerState, LedgerError>
    requires iid in s.intents
  {
    var recorded := WithExecution(s, iid, o, eid);
    if o.filled > EPSILON then ApplyFill(recorded, eid, o, newId) else Ok(recorded)
  }

  // ---- totals --------------------------------------------------------------------

  /** Positions that `open_positions` lists. */
  predicate Active(p: Position) { p.openShares > EPSILON }

  function OpenIds(s: map<Id, Position>): set<Id> { set id | id in s && Active(s[id]) }

  function OpenIn(ticker: string): Position -> real {
    (p: Position) => if p.ticker == ticker then p.openShares as real else 0.0
  }

  /** The units the ledger holds open in a ticker, over all entities. */
  ghost function OpenTotal(positions: map<Id, Position>, ticker: string): real {
    SumBy(positions, OpenIn(ticker))
  }

  // ---- reconcile -----------------------------------------------------------------

  function CountedIn(ticker: string): Position -> real {
    (p: Position) => if p.ticker == ticker && Active(p) then p.openShares as real else 0.0
  }

  /** What `reconcile` counts on either side: only holdings above the tolerance. */
  ghost function LedgerCount(positions: map<Id, Position>, ticker: string): real {
    SumBy(positions, CountedIn(ticker))
  }

  function BrokerCount(held: map<string, int>, ticker: string): int {
    if ticker in held && held[ticker] > EPSILON then held[ticker] else 0
  }

  function ActiveTickers(positions: map<Id, Position>): set<string> {
    set id | id in positions && Active(positions[id]) :: positions[id].ticker
  }

  /** Tickers that one side or the other still holds. */
  function Listed(positions: map<Id, Position>, held: map<string, int>): set<string> {
    (set t | t in held && held[t] > EPSILON) + ActiveTickers(positions)
  }

  ghost predicate Agrees(positions: map<Id, Position>, held: map<string, int>, ticker: string) {
    -1.0 <= LedgerCount(positions, ticker) - BrokerCount(held, ticker) as real <= 1.0
  }

  ghost function Mismatched(positions: map<Id, Position>, held: map<string, int>): set<string> {
    set t | t in Listed(positions, held) && !Agrees(positions, held, t)
  }

  function Flagged(p: Position, bad: set<string>, good: set<string>): Position {
    if p.ticker in bad then p.(reconcileBlocked := true)
    else if p.ticker in good then p.(reconcileBlocked := false)
    else p
  }

  /** `reconcile`: block what disagrees, unblock what agrees, leave unlisted tickers alone. */
  ghost function Reconciled(s: LedgerState, held: map<string, int>): LedgerState {
    var bad := Mismatched(s.positions, held);
    var good := Listed(s.positions, held) - bad;
    s.(blocked := s.blocked - good + bad,
       positions := map id | id in s.positions :: Flagged(s.positions[id], bad, good))
  }
}

/** Facts about the ledger's bookkeeping functions. */
module LedgerFacts {
  import opened Common
  import opened Orders
  import opened Sums
  import opened LedgerSpec

  lemma QtyAdds(a: int, b: int)
    ensures Qty(a + b) == Qty(a) + Qty(b)
  {
  }

  /** What the open shares of a position cost, less the profit it has realized. */
  function NetCost(p: Position): real { Qty(p.openShares) * p.avg - p.pnl }

  /** A buy adds exactly the money paid to the cost of the open shares. */
  lemma BuyCost(p: Position, delta: int, price: real)
    requires p.openShares + delta > EPSILON
    ensures var q := BuyInto(p, delta, price);
            NetCost(q) == NetCost(p) + Qty(delta) * price && q.pnl == p.pnl
  {
    var open := Qty(p.openShares + delta);
    var paid := Qty(p.openShares) * p.avg + Qty(delta) * price;
    assert open > 0.0;
    assert open * (paid / open) == paid;
  }

  /** A sale of no more than is open turns cost into realized profit; only a dropped residue of one
      unit leaves the books without a trade. */
  lemma SellCost(p: Position, delta: int, price: real)
    requires 0 <= delta <= p.openShares
    ensures var q := SellFrom(p, delta, price);
            var residue := if p.openShares - delta == 1 then 1 else 0;
            NetCost(q) == NetCost(p) - Qty(delta) * price - Qty(residue) * p.avg
  {
    var rest := p.openShares - delta;
    QtyAdds(rest, delta);
    assert Qty(p.openShares) * p.avg == Qty(rest) * p.avg + Qty(delta) * p.avg;
    assert Qty(delta) * (price - p.avg) == Qty(delta) * price - Qty(delta) * p.avg;
  }

  /** The price of a first fill is the price the broker reports. */
  lemma FirstFillPrice(e: Execution, o: Order)
    requires e.applied == 0 && o.filled > 0 && o.avg != 0.0
    ensures DeltaPrice(e, o) == o.avg
  {
    assert Qty(o.filled) * o.avg / Qty(o.filled) == o.avg;
  }

  /** Polling an order a second time never moves a position. */
  lemma SecondPollMovesNothing(s: LedgerState, eid: Id, o: Order, newId: Id, newId2: Id)
    requires ApplyFill(s, eid, o, newId).Ok?
    ensures var once := ApplyFill(s, eid, o, newId).value;
            var twice := ApplyFill(once, eid, o, newId2);
            twice.Ok? && twice.value.positions == once.positions
            && twice.value.executions[eid].applied == once.executions[eid].applied
  {
  }

  /** A ticker is blocked after a reconcile exactly when it disagrees now, or was blocked before and
      neither side holds it any more: a ticker that both sides have sold out of is never unblocked. */
  lemma BlockedAfterReconcile(s: LedgerState, held: map<string, int>, ticker: string)
    ensures ticker in Reconciled(s, held).blocked <==>
              ticker in Mismatched(s.positions, held) || (ticker in s.blocked && ticker !in Listed(s.positions, held))
  {
  }

  /** What goes on record when an order is sent: the request it answers, the order, what the broker reports filled and at which
      average, and nothing booked yet. */
  lemma RecordedExactly(s: LedgerState, iid: Id, o: Order, eid: Id)
    requires iid in s.intents
    ensures var after, i := WithExecution(s, iid, o, eid), s.intents[iid];
      && eid in after.executions && after == s.(executions := s.executions[eid := after.executions[eid]], intents := s.intents[iid := after.intents[iid]])
      && var e := after.executions[eid];
         && e.intent == iid && e.position == i.target && e.entity == i.entity && e.ticker == i.ticker && e.side == i.side && e.purpose == i.purpose
         && e.order == o.id && e.requested == i.requested && e.applied == 0 && e.filled == o.filled && e.avg == o.avg && e.state == after.intents[iid].status
         && after.intents[iid] == i.(execution := Some(eid), status := e.state)
         && (o.status == Filled ==> e.state == FilledState) && (o.status == Partial ==> e.state == PartialState)
         && (o.status == Pending ==> e.state == PendingState) && (o.status == Rejected ==> e.state == RejectedState)
         && (o.status == Failed ==> e.state == FailedState) && (o.status == Cancelled ==> e.state == CancelledState)
  {
  }

  /** The position a fill leaves behind: the units open, ever bought and ever sold, the add-buys, and the highest and lowest price
      paid, where a lowest price of zero or less counts as none. */
  lemma FillExactly(s: LedgerState, e: Execution, o: Order)
    requires o.filled - e.applied > 1 && FillComplaint(s, e, o, o.filled - e.applied).None?
    ensures var q, delta, price := PositionAfterFill(s, e, o), o.filled - e.applied, DeltaPrice(e, o);
      && (e.position.Some? && e.position.value in s.positions ==>
            var p := s.positions[e.position.value];
            && q.high == MaxR(p.high, price) && q.low == (if p.low > 0.0 && p.low <= price then p.low else price)
            && q.entity == p.entity && q.ticker == p.ticker && q.entryDate == p.entryDate && q.policy == p.policy && q.reconcileBlocked == p.reconcileBlocked
            && if e.side == Buy then
                 && q.openShares == p.openShares + delta && q.openedShares == p.openedShares + delta && q.closedShares == p.closedShares
                 && q.addBuys == p.addBuys + 1 && q.status == Open && q.pnl == p.pnl
               else
                 && q.openShares == (if p.openShares - delta > 1 then p.openShares - delta else 0) && q.openedShares == p.openedShares
                 && q.closedShares == p.closedShares + (if delta <= p.openShares then delta else p.openShares)
                 && q.addBuys == p.addBuys && q.status == (if q.openShares == 0 then Closed else p.status) && q.avg == p.avg)
      && (e.side == Buy && !(e.position.Some? && e.position.value in s.positions) ==>
            && q.entity == e.entity && q.ticker == e.ticker && q.entryDate == o.filledAt && q.policy == NoPolicy && !q.reconcileBlocked
            && q.openShares == q.openedShares == delta && q.closedShares == q.addBuys == 0 && q.status == Open
            && q.avg == q.high == q.low == price && q.pnl == 0.0)
  {
    hide DeltaPrice, FillComplaint, BlendedAvg, Gain;
    if e.side == Buy && !(e.position.Some? && e.position.value in s.positions) {
      FirstCost(o.filled - e.applied, DeltaPrice(e, o));
      assert DeltaPrice(e, o) > 0.0 by { PriceIsPositive(s, e, o); }
    }
    if e.side == Sell { assert e.position.Some? && e.position.value in s.positions by { SaleHasPosition(s, e, o); } }
  }

  lemma FirstCost(delta: int, price: real)
    requires delta > 0
    ensures BlendedAvg(0, 0.0, delta, price) == price
  {
    assert Qty(delta) * price / Qty(delta) == price;
  }

  lemma PriceIsPositive(s: LedgerState, e: Execution, o: Order)
    requires o.filled - e.applied > EPSILON && FillComplaint(s, e, o, o.filled - e.applied).None?
    ensures DeltaPrice(e, o) > 0.0
  {
  }

  lemma SaleHasPosition(s: LedgerState, e: Execution, o: Order)
    requires o.filled - e.applied > EPSILON && FillComplaint(s, e, o, o.filled - e.applied).None? && e.side == Sell
    ensures e.position.Some? && e.position.value in s.positions
  {
  }

  /** Both sides agree on a ticker when what the ledger holds open in it and what the broker lists differ by a unit at most; holdings
      of a unit or less are not listed on either side. */
  lemma AgreesExactlyWhen(positions: map<Id, Position>, held: map<string, int>, t: string)
    ensures Agrees(positions, held, t) <==>
      var listed := if t in held && held[t] > 1 then held[t] as real else 0.0;
      listed - 1.0 <= SumBy(positions, (p: Position) => if p.ticker == t && p.openShares > 1 then p.openShares as real else 0.0) <= listed + 1.0
    ensures t in Listed(positions, held) <==>
      (t in held && held[t] > 1) || exists id :: id in positions && positions[id].ticker == t && positions[id].openShares > 1
  {
    hide Sum, SumBy;
    SumByEqual(positions, positions, CountedIn(t), (p: Position) => if p.ticker == t && p.openShares > 1 then p.openShares as real else 0.0);
  }

  /** A reconcile flags the positions of tickers that disagree, takes the flag off those of listed tickers that agree, and leaves
      everything else of every position alone. */
  lemma FlaggedAfterReconcile(s: LedgerState, held: map<string, int>, id: Id)
    requires id in s.positions
    ensures var p, q := s.positions[id], Reconciled(s, held).positions[id];
      && q == p.(reconcileBlocked := q.reconcileBlocked)
      && (q.reconcileBlocked <==> if p.ticker in Listed(s.positions, held) then !Agrees(s.positions, held, p.ticker) else p.reconcileBlocked)
  {
  }

  lemma ActiveTickersStep(done: map<Id, Position>, id: Id, p: Position)
    requires id !in done
    ensures ActiveTickers(done[id := p]) == ActiveTickers(done) + (if Active(p) then {p.ticker} else {})
  {
    var now := done[id := p];
    forall t ensures t in ActiveTickers(now) <==> t in ActiveTickers(done) || (Active(p) && t == p.ticker) {
      if t in ActiveTickers(done) {
        var i :| i in done && Active(done[i]) && done[i].ticker == t;
        assert now[i] == done[i];
      }
      if t in ActiveTickers(now) {
        var i :| i in now && Active(now[i]) && now[i].ticker == t;
        if i != id { assert now[i] == done[i]; }
      }
      if Active(p) && t == p.ticker { assert now[id] == p; }
    }
  }
}
