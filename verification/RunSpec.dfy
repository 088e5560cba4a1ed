/** What a backtest reads and writes, what holds between its operations, and which inputs let it run through. */
module RunSpec {
  import opened Common
  import opened Orders
  import opened LedgerSpec
  import opened EntityLedger
  import opened Market
  import opened SimBrokerSpec
  import opened SimBrokers
  import opened Books
  import opened Trading
  import opened Allocation
  import opened Slots
  import ExitPolicy

  // ---- inputs and outputs of a run ------------------------------------------------

  datatype Entity = Entity(ticker: string, confidence: real, rulebook: ExitPolicy.Rulebook)

  datatype ScoreMetric = ByConfidence | ByAllocationScore

  /** What the run reads from outside: signals, and the verdicts of the turnover, churn and exit-imminence guards. */
  datatype Outside = Outside(
    signals: int -> seq<BuyCandidate>,
    turnoverTooHigh: int -> bool, recentlyTraded: (int, string) -> bool, exitImminent: (int, Id) -> bool)

  datatype Setup = Setup(
    entities: map<string, Entity>, params: Params, selectionScores: Option<map<string, real>>,
    swapEnabled: bool, swapGap: real, swapMetric: ScoreMetric,
    queueEnabled: bool, queueTtl: int, outside: Outside)

  datatype TradeRecord = TradeRecord(date: int, entity: string, ticker: string, side: Side, shares: int, price: real, position: Id)

  datatype Rejection = Rejection(date: int, entity: string, ticker: string, side: Side, shares: int)

  /** What a run has written down about its orders. */
  datatype Log = Log(trades: seq<TradeRecord>, rejected: seq<Rejection>) {
    function Traded(t: TradeRecord): Log { this.(trades := trades + [t]) }

    function TurnedAway(r: Rejection): Log { this.(rejected := rejected + [r]) }
  }

  datatype EquityPoint = EquityPoint(date: int, cash: real, holdingsValue: real, openCount: nat) {
    function Equity(): real { cash + holdingsValue }
  }

  class BacktestResult {
    var equityCurve: seq<EquityPoint>
    var trades: seq<TradeRecord>
    var rejected: seq<Rejection>
    var reconcileFailures: seq<int>
    var pnl: map<string, real>
    var finalEquity: real

    constructor ()
      ensures equityCurve == [] && trades == [] && rejected == [] && reconcileFailures == []
    {
      equityCurve, trades, rejected, reconcileFailures, pnl, finalEquity := [], [], [], [], map[], 0.0;
    }

    function Logged(): Log
      reads this
    {
      Log(trades, rejected)
    }

    /** No sale was ever turned down. */
    ghost predicate OnlyBuysRejected()
      reads this
    {
      forall x :: x in rejected ==> x.side == Buy
    }
  }

  /** Where a run stands: the ledger's positions, the cash, and what has been written down. */
  datatype Stage = Stage(positions: map<Id, Position>, cash: real, log: Log)

  /** What a day is traded with. */
  datatype Today = Today(day: int, setup: Setup, frames: map<string, Frame>, policy: FillPolicy)

  ghost function At(ledger: EntityPositionLedger, broker: SimBroker, result: BacktestResult): Stage
    reads ledger, broker, result
  {
    Stage(ledger.positions, broker.cash, result.Logged())
  }

  ghost function With(day: int, setup: Setup, broker: SimBroker): Today { Today(day, setup, broker.frames, broker.policy) }

  // ---- invariants -----------------------------------------------------------------

  /** The balances that hold between any two operations of a run. */
  ghost predicate InBalance(ledger: EntityPositionLedger, broker: SimBroker, initial: real)
    reads ledger, broker
  {
    && broker.Valid()
    && Balanced(ledger.State(), broker.State(), initial)
    && (broker.policy.commissionRate <= 1.0 ==> broker.cash >= MinR(initial, -CASH_TOLERANCE))
  }

  /** The commissions of the trades written down. */
  function CommissionsIn(trades: seq<TradeRecord>, rate: real): real {
    if trades == [] then 0.0
    else
      var t := trades[|trades| - 1];
      CommissionsIn(trades[..|trades| - 1], rate) + Commission(t.shares, t.price, rate)
  }

  /** What the broker charged in all is what the trades written down were charged. */
  ghost predicate Accounted(b: BrokerState, trades: seq<TradeRecord>, rate: real) { CommissionsPaid(b) == CommissionsIn(trades, rate) }

  lemma OneMoreTrade(trades: seq<TradeRecord>, t: TradeRecord, rate: real)
    ensures CommissionsIn(trades + [t], rate) == CommissionsIn(trades, rate) + Commission(t.shares, t.price, rate)
  {
    assert (trades + [t])[..|trades|] == trades;
  }

  /** In balance, and every commission charged belongs to a trade written down. */
  ghost predicate InOrder(ledger: EntityPositionLedger, broker: SimBroker, result: BacktestResult, initial: real)
    reads ledger, broker, result
  {
    InBalance(ledger, broker, initial) && Accounted(broker.State(), result.trades, broker.policy.commissionRate)
  }

  /** Ticker mode and the swap queue both hold each ticker at most once. */
  predicate OneTickerEach(setup: Setup) { !setup.params.allowSameTicker || setup.queueEnabled }

  ghost predicate SlotsOf(positions: map<Id, Position>, setup: Setup) {
    SlotsKept(positions, MaxSlots(setup.params), OneTickerEach(setup))
  }

  /** A filled buy went into position `pid`: the target if it exists, else a new one. */
  ghost predicate BoughtInto(before: map<Id, Position>, now: map<Id, Position>, entity: string, ticker: string, target: Option<Id>, pid: Id) {
    if target.Some? && target.value in before then pid == target.value && TopsUp(before, now, pid)
    else pid !in before && OpensAt(before, now, entity, ticker, pid)
  }

  /** What one buy can have done: nothing, or fill. */
  ghost predicate BuyOutcome(before: map<Id, Position>, now: map<Id, Position>, entity: string, ticker: string, target: Option<Id>) {
    now == before || exists pid :: BoughtInto(before, now, entity, ticker, target, pid)
  }

  ghost predicate TopsUp(before: map<Id, Position>, now: map<Id, Position>, id: Id)
    requires id in before
  {
    && id in now && now == before[id := now[id]]
    && now[id].entity == before[id].entity && now[id].ticker == before[id].ticker && Active(now[id])
  }

  /** `shares` units were bought into position `pid`: the one aimed at, or a new one. */
  ghost predicate Purchased(before: map<Id, Position>, now: map<Id, Position>, entity: string, ticker: string, shares: int,
                            target: Option<Id>, price: real, date: int, pid: Id)
    requires shares > EPSILON
  {
    && (if target.Some? then pid == target.value else pid !in before)
    && (pid in before ==> before[pid].entity == entity && before[pid].ticker == ticker && before[pid].openShares >= 0)
    && now == before[pid := Traded(before, entity, ticker, Buy, shares, price, date, pid)]
  }

  lemma TopUpKeepsOpen(before: map<Id, Position>, now: map<Id, Position>, id: Id)
    requires id in before && Active(before[id]) && TopsUp(before, now, id)
    ensures Closes(before, now, {})
  {
  }

  // ---- days that raise nothing ----------------------------------------------------

  /** The data price a ticker on a day: a mark for its holding, and a positive quote either way. */
  predicate Priced(ticker: string, day: int, frames: map<string, Frame>, policy: FillPolicy) {
    && ticker != "" && ticker in frames && MarkPrice(frames, ticker, day).Some?
    && Quotable(frames, policy, ticker, Buy, day) && Quotable(frames, policy, ticker, Sell, day)
  }

  /** The entity is one of the run, and trades its own ticker. */
  predicate IsEntity(entity: string, ticker: string, setup: Setup) {
    entity in setup.entities && setup.entities[entity].ticker == ticker
  }

  ghost predicate Reliable(cands: seq<BuyCandidate>, setup: Setup) { forall c :: c in cands ==> IsEntity(c.entity, c.ticker, setup) }

  /** The inputs of a day have no gap: every entity's ticker is priced, and the signals are those of the entities. */
  ghost predicate CompleteDay(day: int, setup: Setup, frames: map<string, Frame>, policy: FillPolicy) {
    && (forall e :: e in setup.entities ==> e != "" && Priced(setup.entities[e].ticker, day, frames, policy))
    && Reliable(setup.outside.signals(day), setup)
  }

  ghost predicate Known(positions: map<Id, Position>, setup: Setup) {
    forall id :: id in positions ==> IsEntity(positions[id].entity, positions[id].ticker, setup)
  }

  ghost predicate Sound(positions: map<Id, Position>, day: int, setup: Setup, frames: map<string, Frame>, policy: FillPolicy) {
    CompleteDay(day, setup, frames, policy) && Known(positions, setup)
  }

  /** The decision is for an entity of the run, and aims at no other entity's position. */
  predicate Placeable(d: BuyDecision, positions: map<Id, Position>, setup: Setup) {
    && IsEntity(d.entity, d.ticker, setup)
    && (d.target.Some? ==> d.target.value in positions && positions[d.target.value].entity == d.entity)
  }

  ghost predicate AllPlaceable(ds: seq<BuyDecision>, positions: map<Id, Position>, setup: Setup) {
    forall i :: 0 <= i < |ds| ==> Placeable(ds[i], positions, setup)
  }

  ghost predicate OwnersKept(before: map<Id, Position>, now: map<Id, Position>) {
    forall id :: id in before ==> id in now && now[id].entity == before[id].entity && now[id].ticker == before[id].ticker
  }

  lemma SaleKeepsSound(before: map<Id, Position>, now: map<Id, Position>, closed: set<Id>, day: int, setup: Setup, frames: map<string,
                       Frame>, policy: FillPolicy)
    requires Closes(before, now, closed)
    ensures OwnersKept(before, now) && (Sound(before, day, setup, frames, policy) ==> Sound(now, day, setup, frames, policy))
  {
    hide CompleteDay;
  }

  lemma BuyKeepsSound(before: map<Id, Position>, now: map<Id, Position>, entity: string, ticker: string, target: Option<Id>,
                      day: int, setup: Setup, frames: map<string, Frame>, policy: FillPolicy)
    requires BuyOutcome(before, now, entity, ticker, target)
    ensures OwnersKept(before, now)
    ensures Sound(before, day, setup, frames, policy) && IsEntity(entity, ticker, setup) ==> Sound(now, day, setup, frames, policy)
  {
    hide CompleteDay;
  }

  lemma OneIsPlaceable(ds: seq<BuyDecision>, k: nat, positions: map<Id, Position>, setup: Setup)
    requires AllPlaceable(ds, positions, setup) && k < |ds|
    ensures Placeable(ds[k], positions, setup)
  {
  }

  lemma OwnersChain(a: map<Id, Position>, b: map<Id, Position>, c: map<Id, Position>)
    requires OwnersKept(a, b) && OwnersKept(b, c)
    ensures OwnersKept(a, c)
  {
  }

  lemma SameOwners(positions: map<Id, Position>)
    ensures OwnersKept(positions, positions)
  {
  }

  lemma StillPlaceable(ds: seq<BuyDecision>, before: map<Id, Position>, now: map<Id, Position>, setup: Setup)
    requires AllPlaceable(ds, before, setup) && OwnersKept(before, now)
    ensures AllPlaceable(ds, now, setup)
  {
  }

  /** An entity of the run can always be traded in its own ticker on a complete day. */
  lemma EntityIsPriced(entity: string, ticker: string, day: int, setup: Setup, frames: map<string, Frame>, policy: FillPolicy)
    requires CompleteDay(day, setup, frames, policy) && IsEntity(entity, ticker, setup)
    ensures entity != "" && Priced(ticker, day, frames, policy)
  {
    hide Priced;
  }

  lemma DecisionCanTrade(d: BuyDecision, shares: int, positions: map<Id, Position>, day: int, setup: Setup, frames: map<string, Frame>, policy: FillPolicy)
    requires Sound(positions, day, setup, frames, policy) && Placeable(d, positions, setup) && shares > EPSILON
    ensures CanTrade(positions, d.entity, d.ticker, Buy, shares, d.target) && Quotable(frames, policy, d.ticker, Buy, day)
  {
    hide Quotable;
    EntityIsPriced(d.entity, d.ticker, day, setup, frames, policy);
  }

  lemma PositionCanBeSold(positions: map<Id, Position>, id: Id, day: int, setup: Setup, frames: map<string, Frame>, policy: FillPolicy)
    requires Sound(positions, day, setup, frames, policy) && id in positions
    ensures var p := positions[id];
      p.entity != "" && p.entity in setup.entities && p.ticker in frames && Quotable(frames, policy, p.ticker, Sell, day)
  {
    hide Quotable;
    EntityIsPriced(positions[id].entity, positions[id].ticker, day, setup, frames, policy);
  }
}
