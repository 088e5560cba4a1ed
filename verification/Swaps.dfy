/** Trading weak positions for strong newcomers. */
module Swaps {
  import opened Common
  import opened Orders
  import opened Sorting
  import opened LedgerSpec
  import opened EntityLedger
  import opened Market
  import opened SimBrokerSpec
  import opened SimBrokers
  import opened Books
  import opened Trading
  import opened Allocation
  import opened Slots
  import opened RunSpec
  import opened Steps

  datatype HeldRow = HeldRow(score: real, id: Id)

  datatype NewRow = NewRow(score: real, cand: BuyCandidate)

  function IdOf(): HeldRow -> Id { (h: HeldRow) => h.id }

  function TickerOf(): NewRow -> string { (n: NewRow) => n.cand.ticker }

  /** Weakest held position first. */
  function WeakestFirst(): (HeldRow, HeldRow) -> bool {
    (a: HeldRow, b: HeldRow) => a.score < b.score || (a.score == b.score && a.id <= b.id)
  }

  /** Strongest newcomer first. */
  function StrongestFirst(): (NewRow, NewRow) -> bool {
    (a: NewRow, b: NewRow) => a.score > b.score || (a.score == b.score && !StrLess(a.cand.entity, b.cand.entity))
  }

  function CandidateScore(c: BuyCandidate, metric: ScoreMetric, params: Params): real {
    match metric
    case ByConfidence => c.confidence
    case ByAllocationScore => Score(c, params)
  }

  /** The candidate of an entity; of several, the last. */
  function CandidateOf(cands: seq<BuyCandidate>, entity: string): (c: Option<BuyCandidate>)
    ensures c.Some? ==> c.value in cands && c.value.entity == entity
  {
    if cands == [] then None
    else if cands[|cands| - 1].entity == entity then Some(cands[|cands| - 1])
    else CandidateOf(cands[..|cands| - 1], entity)
  }

  /** Ranks below every score: where the score swaps put a candidate whose score is zero. */
  const LEAST_RANK: real := -10000000000000000000000000000000000000000000000000000000000000000000000000000000000000000000000000000.0

  function RankOf(score: real, zeroLast: bool): real { if zeroLast && score == 0.0 then LEAST_RANK else score }

  function HeldScore(entity: string, metric: ScoreMetric, cands: seq<BuyCandidate>, setup: Setup): Option<real> {
    var cand := CandidateOf(cands, entity);
    if cand.Some? then Some(CandidateScore(cand.value, metric, setup.params))
    else if entity !in setup.entities then None
    else match metric
         case ByConfidence => Some(setup.entities[entity].confidence)
         case ByAllocationScore => Some(setup.params.confidenceWeight * setup.entities[entity].confidence)
  }

  /** A position in profit, with a score, that the queue does not spare because it is about to exit. */
  predicate MayMakeWay(id: Id, p: Position, frames: map<string, Frame>, cands: seq<BuyCandidate>, metric: ScoreMetric, guarded: bool, day: int, setup: Setup) {
    var price := CloseOn(frames, p.ticker, day);
    && price > 0.0 && p.avg > 0.0 && price - p.avg > 0.0
    && HeldScore(p.entity, metric, cands, setup).Some? && !(guarded && setup.outside.exitImminent(day, id))
  }

  lemma OrdersArePreorders()
    ensures TotalPreorder(WeakestFirst()) && TotalPreorder(StrongestFirst())
  {
    forall a: NewRow, b: NewRow ensures StrongestFirst()(a, b) || StrongestFirst()(b, a) {
      StrLessTotal(a.cand.entity, b.cand.entity);
    }
    forall a: NewRow, b: NewRow, c: NewRow | StrongestFirst()(a, b) && StrongestFirst()(b, c) ensures StrongestFirst()(a, c) {
      if a.score == b.score == c.score { StrLessTransitive(a.cand.entity, b.cand.entity, c.cand.entity); }
    }
  }

  /** The positions that may make way, each once, weakest first. */
  ghost predicate IsHeldPool(pool: seq<HeldRow>, positions: map<Id, Position>, frames: map<string, Frame>, cands: seq<BuyCandidate>,
                             metric: ScoreMetric, guarded: bool, day: int, setup: Setup)
  {
    && (forall h :: h in pool ==>
          && h.id in OpenIds(positions) && MayMakeWay(h.id, positions[h.id], frames, cands, metric, guarded, day, setup)
          && HeldScore(positions[h.id].entity, metric, cands, setup) == Some(h.score))
    && (forall id :: id in OpenIds(positions) && MayMakeWay(id, positions[id], frames, cands, metric, guarded, day, setup) ==>
          exists h :: h in pool && h.id == id)
    && DistinctBy(pool, IdOf()) && SortedBy(pool, WeakestFirst())
  }

  /** Open positions in profit that may make way, weakest first; the queue also spares those about to exit. */
  method HeldPool(day: int, ids: seq<Id>, positions: map<Id, Position>, frames: map<string, Frame>, cands: seq<BuyCandidate>,
                  metric: ScoreMetric, guarded: bool, setup: Setup) returns (pool: seq<HeldRow>)
    requires forall id :: id in ids <==> id in OpenIds(positions)
    requires forall i, j :: 0 <= i < j < |ids| ==> ids[i] != ids[j]
    ensures IsHeldPool(pool, positions, frames, cands, metric, guarded, day, setup)
  {
    hide CloseOn, HeldScore, OpenIds, MayMakeWay, WeakestFirst, SortedBy, StableSort, IdOf;
    var rows: seq<HeldRow> := [];
    OpenAreThere(positions);
    NothingPooled(ids, positions, frames, cands, metric, guarded, day, setup);
    hide PooledSoFar;
    for k := 0 to |ids|
      invariant PooledSoFar(rows, ids, k, positions, frames, cands, metric, guarded, day, setup)
    {
      assert ids[k] in ids;
      var p := positions[ids[k]];
      var price := CloseOn(frames, p.ticker, day);
      var score := HeldScore(p.entity, metric, cands, setup);
      OneMorePooled(rows, ids, k, positions, frames, cands, metric, guarded, day, setup);
      if price <= 0.0 || p.avg <= 0.0 || price - p.avg <= 0.0 { continue; }
      if score.None? || (guarded && setup.outside.exitImminent(day, ids[k])) { continue; }
      rows := rows + [HeldRow(score.value, ids[k])];
    }
    PooledIsPool(rows, ids, positions, frames, cands, metric, guarded, day, setup);
    pool := StableSort(rows, WeakestFirst());
  }

  lemma OpenAreThere(positions: map<Id, Position>)
    ensures forall id :: id in OpenIds(positions) ==> id in positions
  {
  }

  /** The rows hold, of the first k positions, each that may make way, with its score, once. */
  ghost predicate PooledSoFar(rows: seq<HeldRow>, ids: seq<Id>, k: nat, positions: map<Id, Position>, frames: map<string, Frame>,
                              cands: seq<BuyCandidate>, metric: ScoreMetric, guarded: bool, day: int, setup: Setup)
  {
    && k <= |ids| && (forall i :: 0 <= i < |ids| ==> ids[i] in positions)
    && (forall h :: h in rows ==>
          && h.id in ids[..k] && h.id in positions && MayMakeWay(h.id, positions[h.id], frames, cands, metric, guarded, day, setup)
          && HeldScore(positions[h.id].entity, metric, cands, setup) == Some(h.score))
    && (forall i :: 0 <= i < k && MayMakeWay(ids[i], positions[ids[i]], frames, cands, metric, guarded, day, setup) ==>
          exists h :: h in rows && h.id == ids[i])
    && DistinctBy(rows, IdOf())
  }

  lemma NothingPooled(ids: seq<Id>, positions: map<Id, Position>, frames: map<string, Frame>, cands: seq<BuyCandidate>,
                      metric: ScoreMetric, guarded: bool, day: int, setup: Setup)
    requires forall id :: id in ids ==> id in positions
    ensures PooledSoFar([], ids, 0, positions, frames, cands, metric, guarded, day, setup)
  {
  }

  lemma OneMorePooled(rows: seq<HeldRow>, ids: seq<Id>, k: nat, positions: map<Id, Position>, frames: map<string, Frame>,
                      cands: seq<BuyCandidate>, metric: ScoreMetric, guarded: bool, day: int, setup: Setup)
    requires PooledSoFar(rows, ids, k, positions, frames, cands, metric, guarded, day, setup) && k < |ids| && ids[k] in positions
    requires forall i, j :: 0 <= i < j < |ids| ==> ids[i] != ids[j]
    ensures var p := positions[ids[k]];
            var price, score := CloseOn(frames, p.ticker, day), HeldScore(p.entity, metric, cands, setup);
      if price <= 0.0 || p.avg <= 0.0 || price - p.avg <= 0.0 || score.None? || (guarded && setup.outside.exitImminent(day, ids[k]))
      then PooledSoFar(rows, ids, k + 1, positions, frames, cands, metric, guarded, day, setup)
      else PooledSoFar(rows + [HeldRow(score.value, ids[k])], ids, k + 1, positions, frames, cands, metric, guarded, day, setup)
  {
    hide PooledSoFar, MayMakeWay, CloseOn, HeldScore;
    var id, p := ids[k], positions[ids[k]];
    PooledOrNot(rows, ids, k, positions, frames, cands, metric, guarded, day, setup);
    MakesWay(id, p, frames, cands, metric, guarded, day, setup);
  }

  /** The k-th position adds its row if it may make way and leaves the rows alone if it may not. */
  lemma PooledOrNot(rows: seq<HeldRow>, ids: seq<Id>, k: nat, positions: map<Id, Position>, frames: map<string, Frame>,
                   cands: seq<BuyCandidate>, metric: ScoreMetric, guarded: bool, day: int, setup: Setup)
    requires PooledSoFar(rows, ids, k, positions, frames, cands, metric, guarded, day, setup) && k < |ids|
    requires forall i, j :: 0 <= i < j < |ids| ==> ids[i] != ids[j]
    ensures ids[k] in positions
    ensures !MayMakeWay(ids[k], positions[ids[k]], frames, cands, metric, guarded, day, setup) ==>
              PooledSoFar(rows, ids, k + 1, positions, frames, cands, metric, guarded, day, setup)
    ensures var score := HeldScore(positions[ids[k]].entity, metric, cands, setup);
      MayMakeWay(ids[k], positions[ids[k]], frames, cands, metric, guarded, day, setup) && score.Some? ==>
        PooledSoFar(rows + [HeldRow(score.value, ids[k])], ids, k + 1, positions, frames, cands, metric, guarded, day, setup)
  {
    hide MayMakeWay, CloseOn, HeldScore;
    var id := ids[k];
    assert id !in ids[..k] && ids[..k + 1] == ids[..k] + [id];
    var score := HeldScore(positions[id].entity, metric, cands, setup);
    if MayMakeWay(id, positions[id], frames, cands, metric, guarded, day, setup) && score.Some? {
      var row := HeldRow(score.value, id);
      assert row in rows + [row] && forall h :: h in rows ==> h in rows + [row];
    }
  }

  lemma MakesWay(id: Id, p: Position, frames: map<string, Frame>, cands: seq<BuyCandidate>, metric: ScoreMetric, guarded: bool, day: int, setup: Setup)
    ensures var price, score := CloseOn(frames, p.ticker, day), HeldScore(p.entity, metric, cands, setup);
      MayMakeWay(id, p, frames, cands, metric, guarded, day, setup) <==>
      !(price <= 0.0 || p.avg <= 0.0 || price - p.avg <= 0.0 || score.None? || (guarded && setup.outside.exitImminent(day, id)))
  {
  }

  lemma PooledIsPool(rows: seq<HeldRow>, ids: seq<Id>, positions: map<Id, Position>, frames: map<string, Frame>,
                     cands: seq<BuyCandidate>, metric: ScoreMetric, guarded: bool, day: int, setup: Setup)
    requires PooledSoFar(rows, ids, |ids|, positions, frames, cands, metric, guarded, day, setup)
    requires forall id :: id in ids <==> id in OpenIds(positions)
    ensures IsHeldPool(StableSort(rows, WeakestFirst()), positions, frames, cands, metric, guarded, day, setup)
  {
    hide MayMakeWay, HeldScore, WeakestFirst, SortedBy, StableSort, IdOf, OpenIds;
    assert ids[..|ids|] == ids;
    OrdersArePreorders();
    SortSorts(rows, WeakestFirst());
    SortKeepsDistinct(rows, WeakestFirst(), IdOf());
    SortKeepsElements(rows, WeakestFirst());
    forall id | id in OpenIds(positions) && MayMakeWay(id, positions[id], frames, cands, metric, guarded, day, setup)
      ensures exists h :: h in StableSort(rows, WeakestFirst()) && h.id == id
    {
      var i :| 0 <= i < |ids| && ids[i] == id;
      var h :| h in rows && h.id == ids[i];
    }
  }

  /** A newcomer is free of the open and the chosen: neither its ticker nor its entity is held or already decided. */
  predicate Unheld(c: BuyCandidate, openTickers: set<string>, openEntities: set<string>, ds: seq<BuyDecision>) {
    && c.ticker != "" && c.ticker !in openTickers && c.entity !in openEntities
    && (forall d :: d in ds ==> d.ticker != c.ticker && d.entity != c.entity)
  }

  /** A candidate worth trading: with a price, confident enough, and a positive allocation score. */
  predicate Tradable(c: BuyCandidate, params: Params) {
    c.price > 0.0 && !BelowMinConfidence(c, params) && Score(c, params) > 0.0
  }

  function RankRow(c: BuyCandidate, metric: ScoreMetric, zeroLast: bool, params: Params): NewRow {
    NewRow(RankOf(CandidateScore(c, metric, params), zeroLast), c)
  }

  /** The best tradable candidate of each ticker that is free, strongest first. */
  ghost predicate IsNewcomerPool(pool: seq<NewRow>, cands: seq<BuyCandidate>, openTickers: set<string>, openEntities: set<string>,
                                 ds: seq<BuyDecision>, metric: ScoreMetric, zeroLast: bool, params: Params)
  {
    && (forall n :: n in pool ==>
          n.cand in cands && Unheld(n.cand, openTickers, openEntities, ds) && Tradable(n.cand, params) && n.score == CandidateScore(n.cand, metric, params))
    && (forall c :: c in cands && Unheld(c, openTickers, openEntities, ds) && Tradable(c, params) ==>
          Represented(c, pool, metric, zeroLast, params))
    && DistinctBy(pool, TickerOf()) && SortedBy(pool, StrongestFirst())
  }

  /** `a` ranks no lower than `b`. */
  predicate Leads(a: BuyCandidate, b: BuyCandidate, metric: ScoreMetric, zeroLast: bool, params: Params) {
    StrongestFirst()(RankRow(a, metric, zeroLast, params), RankRow(b, metric, zeroLast, params))
  }

  /** The rows have a candidate of the ticker of `c` that ranks no lower. */
  ghost predicate Represented(c: BuyCandidate, rows: seq<NewRow>, metric: ScoreMetric, zeroLast: bool, params: Params) {
    exists n :: n in rows && n.cand.ticker == c.ticker && Leads(n.cand, c, metric, zeroLast, params)
  }

  /** The candidates from the strongest down: each leads those behind it. */
  method RankCandidates(cands: seq<BuyCandidate>, metric: ScoreMetric, zeroLast: bool, params: Params) returns (ranked: seq<BuyCandidate>)
    ensures forall c :: c in ranked <==> c in cands
    ensures forall i, j :: 0 <= i <= j < |ranked| ==> Leads(ranked[i], ranked[j], metric, zeroLast, params)
  {
    hide StrongestFirst, RankRow;
    var rows := seq(|cands|, i requires 0 <= i < |cands| => RankRow(cands[i], metric, zeroLast, params));
    var sorted := StableSort(rows, StrongestFirst());
    OrdersArePreorders();
    SortSorts(rows, StrongestFirst());
    SortKeepsElements(rows, StrongestFirst());
    forall i | 0 <= i < |sorted| ensures sorted[i] == RankRow(sorted[i].cand, metric, zeroLast, params) && sorted[i].cand in cands {
      assert sorted[i] in rows;
      RowKeepsCandidate(cands, metric, zeroLast, params);
    }
    ranked := seq(|sorted|, i requires 0 <= i < |sorted| => sorted[i].cand);
    forall c | c in cands ensures c in ranked {
      var i :| 0 <= i < |cands| && cands[i] == c;
      assert rows[i] in sorted;
      var j :| 0 <= j < |sorted| && sorted[j] == rows[i];
      RowKeepsCandidate(cands, metric, zeroLast, params);
      assert ranked[j] == c;
    }
    forall i, j | 0 <= i <= j < |ranked| ensures Leads(ranked[i], ranked[j], metric, zeroLast, params) {
      assert StrongestFirst()(sorted[i], sorted[j]);
    }
  }

  lemma RowKeepsCandidate(cands: seq<BuyCandidate>, metric: ScoreMetric, zeroLast: bool, params: Params)
    ensures forall c :: c in cands ==> RankRow(c, metric, zeroLast, params).cand == c
  {
  }

  /** The best candidate of each ticker that is not held yet, strongest first. */
  method NewcomerPool(cands: seq<BuyCandidate>, openTickers: set<string>, openEntities: set<string>, ds: seq<BuyDecision>,
                      metric: ScoreMetric, zeroLast: bool, params: Params) returns (pool: seq<NewRow>)
    ensures IsNewcomerPool(pool, cands, openTickers, openEntities, ds, metric, zeroLast, params)
  {
    hide CandidateScore, Leads, Score, BelowMinConfidence, Unheld, StrongestFirst;
    var ranked := RankCandidates(cands, metric, zeroLast, params);
    var rows: seq<NewRow> := [];
    var used: set<string> := {};
    for k := 0 to |ranked|
      invariant forall n :: n in rows ==>
        && n.cand in cands && Unheld(n.cand, openTickers, openEntities, ds) && Tradable(n.cand, params)
        && n.score == CandidateScore(n.cand, metric, params) && n.cand.ticker in used
      invariant forall t :: t in used ==> exists n :: n in rows && n.cand.ticker == t
      invariant forall n, i :: n in rows && k <= i < |ranked| ==> Leads(n.cand, ranked[i], metric, zeroLast, params)
      invariant forall i :: 0 <= i < k && Unheld(ranked[i], openTickers, openEntities, ds) && Tradable(ranked[i], params) ==>
        Represented(ranked[i], rows, metric, zeroLast, params)
      invariant DistinctBy(rows, TickerOf())
    {
      var c := ranked[k];
      assert c in ranked;
      if !Unheld(c, openTickers, openEntities, ds) || c.ticker in used { continue; }
      if c.price <= 0.0 || BelowMinConfidence(c, params) || Score(c, params) <= 0.0 { continue; }
      ghost var before := rows;
      rows := rows + [NewRow(CandidateScore(c, metric, params), c)];
      used := used + {c.ticker};
      MoreRepresented(ranked[..k], before, NewRow(CandidateScore(c, metric, params), c), metric, zeroLast, params);
    }
    SortedPool(rows, ranked, metric, zeroLast, params);
    pool := StableSort(rows, StrongestFirst());
  }

  lemma MoreRepresented(cs: seq<BuyCandidate>, rows: seq<NewRow>, n: NewRow, metric: ScoreMetric, zeroLast: bool, params: Params)
    ensures forall c :: c in cs && Represented(c, rows, metric, zeroLast, params) ==> Represented(c, rows + [n], metric, zeroLast, params)
    ensures n in rows + [n]
  {
    hide Leads;
    assert forall m :: m in rows ==> m in rows + [n];
  }

  lemma SortedPool(rows: seq<NewRow>, cs: seq<BuyCandidate>, metric: ScoreMetric, zeroLast: bool, params: Params)
    requires DistinctBy(rows, TickerOf())
    ensures var pool := StableSort(rows, StrongestFirst());
      && (forall n :: n in pool <==> n in rows) && DistinctBy(pool, TickerOf()) && SortedBy(pool, StrongestFirst())
      && forall c :: c in cs && Represented(c, rows, metric, zeroLast, params) ==> Represented(c, pool, metric, zeroLast, params)
  {
    hide Leads, StrongestFirst, StableSort;
    OrdersArePreorders();
    SortSorts(rows, StrongestFirst());
    SortKeepsDistinct(rows, StrongestFirst(), TickerOf());
    SortKeepsElements(rows, StrongestFirst());
  }

  /** Sell a position to make room; a position of dust is not sold. */
  method ExecuteSwapSell(ledger: EntityPositionLedger, broker: SimBroker, result: BacktestResult, id: Id, ghost initial: real)
    returns (r: Outcome<RunError>, ok: bool, proceeds: real)
    requires InOrder(ledger, broker, result, initial) && id in ledger.positions
    modifies ledger, broker`cash, broker`holdings, broker`orders, broker`nextId, result`trades, result`rejected
    ensures r.Pass? ==>
      var p := old(ledger.positions[id]);
      var quote := QuoteOn(broker.frames, broker.policy, p.ticker, Sell, broker.day);
      && InOrder(ledger, broker, result, initial)
      && ok == Active(p)
      && (ok ==>
            && proceeds == Notional(p.openShares, quote.0) > 0.0
            && broker.cash == CashAfterSale(old(broker.cash), p.openShares, quote.0, broker.policy.commissionRate)
            && ledger.positions == old(ledger.positions)[id := SellFrom(p, p.openShares, quote.0)]
            && Closes(old(ledger.positions), ledger.positions, {id})
            && result.Logged() == old(result.Logged()).Traded(SaleRecord(p, quote, id)))
      && (!ok ==> At(ledger, broker, result) == old(At(ledger, broker, result)))
    ensures r.Raise? ==> result.Logged() == old(result.Logged())
    ensures var p := old(ledger.positions[id]);
      p.entity != "" && Quotable(broker.frames, broker.policy, p.ticker, Sell, broker.day) ==> r.Pass?
  {
    hide Balanced, Accounted, SellFrom, ExecutionPrice, Closes, CashAfterSale, Quotable;
    var p := ledger.positions[id];
    if p.openShares <= MIN_ORDER_SHARES { return Pass, false, 0.0; }
    var o;
    r, ok, o := SellPosition(ledger, broker, result, id, initial);
    proceeds := Notional(o.filled, o.avg);
    if r.Pass? { NotionalPositive(o.filled, o.avg); }
  }

  lemma NotionalPositive(shares: int, price: real)
    requires shares > 0 && price > 0.0
    ensures Notional(shares, price) > 0.0
  {
  }

  /** The close of the day, or else the price that came with the signal. */
  function SwapPrice(c: BuyCandidate, frames: map<string, Frame>, day: int): real {
    var today := CloseOn(frames, c.ticker, day);
    if today <= 0.0 then c.price else today
  }

  /** The units that the proceeds, or the cash if that is less, can pay for. */
  function SwapShares(proceeds: real, cash: real, close: real, bufferRatio: real): int
    requires close > 0.0
  {
    CashCappedShares(MinR(proceeds, cash), Units(MinR(proceeds, cash) / close), close, bufferRatio)
  }

  /** The decision that spends the proceeds of a sale on a newcomer, if they buy anything. */
  function SwapDecision(c: BuyCandidate, proceeds: real, cash: real, score: real, frames: map<string, Frame>, day: int, setup: Setup): Option<BuyDecision> {
    var close := SwapPrice(c, frames, day);
    if c.entity !in setup.entities || close <= 0.0 then None
    else
      var shares := SwapShares(proceeds, cash, close, setup.params.cashBufferRatio);
      if shares <= MIN_ORDER_SHARES then None
      else Some(BuyDecision(c.entity, c.ticker, shares, Notional(shares, close), score, "entry", None))
  }

  /** The purchase after a sale: nothing when it buys nothing, else its decision carried out. */
  ghost predicate SpentOn(c: BuyCandidate, proceeds: real, score: real, a: Stage, b: Stage, today: Today) {
    match SwapDecision(c, proceeds, a.cash, score, today.frames, today.day, today.setup)
    case None => b == a
    case Some(d) => CarriedOut(d, a, b, today)
  }

  /** Spend the proceeds of a sale on a newcomer. */
  method ExecuteSwapBuy(day: int, c: BuyCandidate, proceeds: real, setup: Setup, ledger: EntityPositionLedger, broker: SimBroker,
                        result: BacktestResult, score: real, ghost initial: real)
    returns (r: Outcome<RunError>)
    requires broker.day == day && InOrder(ledger, broker, result, initial) && result.OnlyBuysRejected()
    modifies ledger, broker`cash, broker`holdings, broker`orders, broker`nextId, result`trades, result`rejected
    ensures result.OnlyBuysRejected()
    ensures r.Pass? ==>
      && InOrder(ledger, broker, result, initial)
      && SpentOn(c, proceeds, score, old(At(ledger, broker, result)), At(ledger, broker, result), With(day, setup, broker))
      && BuyOutcome(old(ledger.positions), ledger.positions, c.entity, c.ticker, None)
      && OwnersKept(old(ledger.positions), ledger.positions)
    ensures Sound(old(ledger.positions), day, setup, broker.frames, broker.policy) && IsEntity(c.entity, c.ticker, setup) ==>
      r.Pass? && Sound(ledger.positions, day, setup, broker.frames, broker.policy)
  {
    hide Balanced, Accounted, CarriedOut, SwapShares, Sound, OwnersKept;
    NothingBought(ledger.positions, c.entity, c.ticker, None);
    if c.entity !in setup.entities { return Pass; }
    var close := CloseOn(broker.frames, c.ticker, day);
    if close <= 0.0 { close := c.price; }
    if close <= 0.0 { return Pass; }
    var shares := SwapShares(proceeds, broker.cash, close, setup.params.cashBufferRatio);
    if shares <= MIN_ORDER_SHARES { return Pass; }
    var d := BuyDecision(c.entity, c.ticker, shares, Notional(shares, close), score, "entry", None);
    r := ExecuteBuy(day, d, setup, ledger, broker, result, initial);
  }

  /** What one swap leaves open: everything but the position that made way, and at most one newcomer's ticker more. */
  ghost predicate SwapLeaves(before: map<Id, Position>, now: map<Id, Position>, gone: set<Id>, newTickers: set<string>) {
    && (forall id :: id in OpenIds(before) && id !in gone ==>
          id in OpenIds(now) && now[id].entity == before[id].entity && now[id].ticker == before[id].ticker)
    && ActiveTickers(now) <= ActiveTickers(before) + newTickers
  }

  lemma CloseLeaves(before: map<Id, Position>, now: map<Id, Position>, id: Id, setup: Setup)
    requires SlotsOf(before, setup) && id in OpenIds(before) && Closes(before, now, {id})
    ensures SlotsOf(now, setup) && SwapLeaves(before, now, {id}, {}) && |OpenIds(now)| < MaxSlots(setup.params)
  {
    CloseKeepsSlots(before, now, {id}, MaxSlots(setup.params), OneTickerEach(setup));
    assert id in {id} * OpenIds(before);
  }

  /** A buy without target either does nothing or opens one position, in a slot that must be free. */
  lemma EntryLeaves(before: map<Id, Position>, now: map<Id, Position>, entity: string, ticker: string, setup: Setup)
    requires SlotsOf(before, setup) && |OpenIds(before)| < MaxSlots(setup.params)
    requires OneTickerEach(setup) ==> ticker !in ActiveTickers(before)
    requires BuyOutcome(before, now, entity, ticker, None)
    ensures SlotsOf(now, setup) && SwapLeaves(before, now, {}, {ticker})
    ensures |OpenIds(now)| <= |OpenIds(before)| + 1
  {
    if now != before {
      var pid :| BoughtInto(before, now, entity, ticker, None, pid);
      assert OpensOne(before, now, entity, ticker);
      OpenKeepsSlots(before, now, entity, ticker, MaxSlots(setup.params), OneTickerEach(setup));
    }
  }

  /** All slots are taken. */
  predicate Full(positions: map<Id, Position>, setup: Setup) { 0 < MaxSlots(setup.params) <= |ActiveTickers(positions)| }

  lemma NothingLeaves(positions: map<Id, Position>)
    ensures SwapLeaves(positions, positions, {}, {}) && forall t :: SwapLeaves(positions, positions, {}, {t})
  {
  }

  lemma SwapChains(a: map<Id, Position>, b: map<Id, Position>, c: map<Id, Position>, g1: set<Id>, g2: set<Id>, t1: set<string>, t2: set<string>)
    requires SwapLeaves(a, b, g1, t1) && SwapLeaves(b, c, g2, t2)
    ensures SwapLeaves(a, c, g1 + g2, t1 + t2)
  {
  }

  /** One swap: the held position is sold whole, and what that brought is spent on the newcomer. */
  ghost predicate Swapped(id: Id, n: NewRow, a: Stage, b: Stage, today: Today) {
    && id in a.positions
    && var p := a.positions[id];
       var quote := QuoteOn(today.frames, today.policy, p.ticker, Sell, today.day);
       var sold := Stage(a.positions[id := SellFrom(p, p.openShares, quote.0)], CashAfterSale(a.cash, p.openShares, quote.0, today.policy.commissionRate),
                         a.log.Traded(SaleRecord(p, quote, id)));
       SpentOn(n.cand, Notional(p.openShares, quote.0), n.score, sold, b, today)
  }

  /** One swap: sell the held position, then spend the proceeds on the newcomer. */
  method SwapOne(day: int, id: Id, n: NewRow, setup: Setup, ledger: EntityPositionLedger, broker: SimBroker, result: BacktestResult, ghost initial: real)
    returns (r: Outcome<RunError>)
    requires broker.day == day && InOrder(ledger, broker, result, initial) && SlotsOf(ledger.positions, setup) && result.OnlyBuysRejected()
    requires id in OpenIds(ledger.positions) && n.cand.ticker !in ActiveTickers(ledger.positions)
    modifies ledger, broker`cash, broker`holdings, broker`orders, broker`nextId, result`trades, result`rejected
    ensures result.OnlyBuysRejected()
    ensures r.Pass? ==>
      && InOrder(ledger, broker, result, initial) && SlotsOf(ledger.positions, setup)
      && Swapped(id, n, old(At(ledger, broker, result)), At(ledger, broker, result), With(day, setup, broker))
      && SwapLeaves(old(ledger.positions), ledger.positions, {id}, {n.cand.ticker})
      && id in ledger.positions && ledger.positions[id].openShares == 0
      && (forall j :: j in old(ledger.positions) && j != id ==> j in ledger.positions && ledger.positions[j] == old(ledger.positions)[j])
      && OwnersKept(old(ledger.positions), ledger.positions)
    ensures Sound(old(ledger.positions), day, setup, broker.frames, broker.policy) && IsEntity(n.cand.entity, n.cand.ticker, setup) ==>
      r.Pass? && Sound(ledger.positions, day, setup, broker.frames, broker.policy)
  {
    hide Balanced, Accounted, SlotsKept, SwapLeaves, ActiveTickers, QuoteOn, SpentOn, CashAfterSale, Closes;
    hide SellFrom, Notional, BuyOutcome, OpenIds, Sound, OwnersKept, Quotable, IsEntity;
    OpenIsActive(ledger.positions, id);
    ghost var before := ledger.positions;
    if Sound(ledger.positions, day, setup, broker.frames, broker.policy) { PositionCanBeSold(before, id, day, setup, broker.frames, broker.policy); }
    var ok, proceeds;
    r, ok, proceeds := ExecuteSwapSell(ledger, broker, result, id, initial);
    if r.Raise? { return; }
    ghost var freed := ledger.positions;
    SaleKeepsSound(before, freed, {id}, day, setup, broker.frames, broker.policy);
    CloseLeaves(before, freed, id, setup);
    StillUnheld(before, freed, {id}, n.cand.ticker);
    r := ExecuteSwapBuy(day, n.cand, proceeds, setup, ledger, broker, result, n.score, initial);
    if r.Raise? { return; }
    OwnersChain(before, freed, ledger.positions);
    EntryLeaves(freed, ledger.positions, n.cand.entity, n.cand.ticker, setup);
    NewcomerSparesOthers(freed, ledger.positions, n.cand.entity, n.cand.ticker);
    SoldWhole(before[id], QuoteOn(broker.frames, broker.policy, before[id].ticker, Sell, day).0);
    SwapChains(before, freed, ledger.positions, {id}, {}, {}, {n.cand.ticker});
    assert {id} + {} == {id} && {} + {n.cand.ticker} == {n.cand.ticker};
  }

  lemma SoldWhole(p: Position, price: real)
    ensures SellFrom(p, p.openShares, price).openShares == 0
  {
  }

  lemma NewcomerSparesOthers(before: map<Id, Position>, now: map<Id, Position>, entity: string, ticker: string)
    requires BuyOutcome(before, now, entity, ticker, None)
    ensures forall j :: j in before ==> j in now && now[j] == before[j]
  {
  }

  lemma StillUnheld(before: map<Id, Position>, now: map<Id, Position>, gone: set<Id>, ticker: string)
    requires SwapLeaves(before, now, gone, {}) && ticker !in ActiveTickers(before)
    ensures ticker !in ActiveTickers(now)
  {
  }

  /** Pairs traded from the front while the newcomer leads by the gap: as many as the pools and the gap allow. */
  ghost predicate SwapsMade(n: nat, held: seq<HeldRow>, newcomers: seq<NewRow>, gap: real) {
    && n <= |held| && n <= |newcomers|
    && (forall j :: 0 <= j < n ==> newcomers[j].score - held[j].score >= gap)
    && (n < |held| && n < |newcomers| ==> newcomers[n].score - held[n].score < gap)
  }

  /** The swaps one after another, from each stage to the next. */
  ghost predicate SwapChain(stages: seq<Stage>, held: seq<HeldRow>, newcomers: seq<NewRow>, today: Today) {
    && 0 < |stages| <= |held| + 1 && |stages| <= |newcomers| + 1
    && forall k :: 0 <= k < |stages| - 1 ==> Swapped(held[k].id, newcomers[k], stages[k], stages[k + 1], today)
  }

  lemma NoStageYet(a: Stage, held: seq<HeldRow>, newcomers: seq<NewRow>, today: Today)
    ensures SwapChain([a], held, newcomers, today)
  {
  }

  lemma OneMoreStage(stages: seq<Stage>, held: seq<HeldRow>, newcomers: seq<NewRow>, b: Stage, today: Today)
    requires SwapChain(stages, held, newcomers, today) && |stages| <= |held| && |stages| <= |newcomers|
    requires var n := |stages| - 1; Swapped(held[n].id, newcomers[n], stages[n], b, today)
    ensures SwapChain(stages + [b], held, newcomers, today)
  {
    hide Swapped;
  }

  /** What the score swaps of a day looked at, and the stages they went through. */
  datatype SwapTrace = SwapTrace(held: seq<HeldRow>, newcomers: seq<NewRow>, stages: seq<Stage>)

  /** The score swaps of a day: only when all slots are taken, and then the pairs at the front of both pools that the gap allows. */
  ghost predicate SwapsAsSpecified(t: SwapTrace, a: Stage, b: Stage, swapped: set<Id>, cands: seq<BuyCandidate>, ds: seq<BuyDecision>, today: Today) {
    var Today(day, setup, frames, policy) := today;
    if setup.swapEnabled && Full(a.positions, setup) then
      && IsHeldPool(t.held, a.positions, frames, cands, setup.swapMetric, false, day, setup)
      && IsNewcomerPool(t.newcomers, cands, ActiveTickers(a.positions), EntitiesOf(a.positions), ds, setup.swapMetric, true, setup.params)
      && SwapChain(t.stages, t.held, t.newcomers, today) && t.stages[0] == a && t.stages[|t.stages| - 1] == b
      && SwapsMade(|t.stages| - 1, t.held, t.newcomers, setup.swapGap)
      && swapped == GoneIds(t.held, |t.stages| - 1)
    else
      swapped == {} && b == a
  }

  /** The positions and the tickers of the first n swaps. */
  ghost function GoneIds(held: seq<HeldRow>, n: nat): set<Id>
    requires n <= |held|
  {
    set j | 0 <= j < n :: held[j].id
  }

  ghost function NewTickers(newcomers: seq<NewRow>, n: nat): set<string>
    requires n <= |newcomers|
  {
    set j | 0 <= j < n :: newcomers[j].cand.ticker
  }

  lemma OneMoreSwap(held: seq<HeldRow>, newcomers: seq<NewRow>, n: nat)
    requires n < |held| && n < |newcomers|
    ensures GoneIds(held, n + 1) == GoneIds(held, n) + {held[n].id}
    ensures NewTickers(newcomers, n + 1) == NewTickers(newcomers, n) + {newcomers[n].cand.ticker}
  {
  }

  /** The pools name open positions and free tickers, each once. */
  ghost predicate Pooled(held: seq<HeldRow>, newcomers: seq<NewRow>, positions: map<Id, Position>) {
    && (forall j :: 0 <= j < |held| ==> held[j].id in OpenIds(positions))
    && (forall j :: 0 <= j < |newcomers| ==> newcomers[j].cand.ticker !in ActiveTickers(positions))
    && (forall i, j :: 0 <= i < j < |held| ==> held[i].id != held[j].id)
    && (forall i, j :: 0 <= i < j < |newcomers| ==> newcomers[i].cand.ticker != newcomers[j].cand.ticker)
  }

  lemma PoolsAreDistinct(held: seq<HeldRow>, newcomers: seq<NewRow>, positions: map<Id, Position>, frames: map<string, Frame>, cands: seq<BuyCandidate>,
                         openEntities: set<string>, ds: seq<BuyDecision>, day: int, guarded: bool, metric: ScoreMetric, zeroLast: bool, setup: Setup)
    requires IsHeldPool(held, positions, frames, cands, metric, guarded, day, setup)
    requires IsNewcomerPool(newcomers, cands, ActiveTickers(positions), openEntities, ds, metric, zeroLast, setup.params)
    ensures Pooled(held, newcomers, positions)
  {
    hide ActiveTickers, OpenIds, MayMakeWay, HeldScore, Tradable, Represented, SortedBy;
    forall j | 0 <= j < |held| ensures held[j].id in OpenIds(positions) { assert held[j] in held; }
    forall j | 0 <= j < |newcomers| ensures newcomers[j].cand.ticker !in ActiveTickers(positions) { assert newcomers[j] in newcomers; }
    forall i, j | 0 <= i < j < |held| ensures held[i].id != held[j].id { assert IdOf()(held[i]) != IdOf()(held[j]); }
    forall i, j | 0 <= i < j < |newcomers| ensures newcomers[i].cand.ticker != newcomers[j].cand.ticker {
      assert TickerOf()(newcomers[i]) != TickerOf()(newcomers[j]);
    }
  }

  lemma NewcomersAreReliable(newcomers: seq<NewRow>, cands: seq<BuyCandidate>, openTickers: set<string>, openEntities: set<string>,
                             ds: seq<BuyDecision>, metric: ScoreMetric, zeroLast: bool, setup: Setup)
    requires IsNewcomerPool(newcomers, cands, openTickers, openEntities, ds, metric, zeroLast, setup.params)
    ensures Reliable(cands, setup) ==> AllEntities(newcomers, setup)
  {
    hide Represented, Tradable, SortedBy, IsEntity;
    if Reliable(cands, setup) {
      forall j | 0 <= j < |newcomers| ensures IsEntity(newcomers[j].cand.entity, newcomers[j].cand.ticker, setup) {
        assert newcomers[j] in newcomers;
      }
    }
  }

  /** After n swaps: the first n positions are sold out, and nothing else left but for the newcomers. */
  ghost predicate SwappedSoFar(n: nat, held: seq<HeldRow>, newcomers: seq<NewRow>, start: map<Id, Position>, now: map<Id, Position>) {
    && n <= |held| && n <= |newcomers|
    && SwapLeaves(start, now, GoneIds(held, n), NewTickers(newcomers, n))
    && forall id :: id in GoneIds(held, n) ==> id in now && now[id].openShares == 0
  }

  lemma NextStillFree(n: nat, held: seq<HeldRow>, newcomers: seq<NewRow>, start: map<Id, Position>, now: map<Id, Position>)
    requires SwappedSoFar(n, held, newcomers, start, now) && Pooled(held, newcomers, start) && n < |held| && n < |newcomers|
    ensures held[n].id in OpenIds(now) && newcomers[n].cand.ticker !in ActiveTickers(now)
  {
    hide OpenIds, ActiveTickers;
  }

  lemma OneMoreSwapped(n: nat, held: seq<HeldRow>, newcomers: seq<NewRow>, start: map<Id, Position>, before: map<Id, Position>, now: map<Id, Position>)
    requires SwappedSoFar(n, held, newcomers, start, before) && n < |held| && n < |newcomers|
    requires SwapLeaves(before, now, {held[n].id}, {newcomers[n].cand.ticker})
    requires held[n].id in now && now[held[n].id].openShares == 0
    requires forall j :: j in before && j != held[n].id ==> j in now && now[j] == before[j]
    ensures SwappedSoFar(n + 1, held, newcomers, start, now)
  {
    hide SwapLeaves;
    OneMoreSwap(held, newcomers, n);
    SwapChains(start, before, now, GoneIds(held, n), {held[n].id}, NewTickers(newcomers, n), {newcomers[n].cand.ticker});
  }

  lemma NothingSwapped(held: seq<HeldRow>, newcomers: seq<NewRow>, start: map<Id, Position>)
    ensures SwappedSoFar(0, held, newcomers, start, start) && GoneIds(held, 0) == {}
  {
    assert NewTickers(newcomers, 0) == {};
  }

  function EntitiesOf(positions: map<Id, Position>): set<string> { set id | id in OpenIds(positions) :: positions[id].entity }

  /** Swap the pairs at the front of both pools for as long as the newcomer leads by the gap. */
  method SwapPairs(day: int, held: seq<HeldRow>, newcomers: seq<NewRow>, setup: Setup, ledger: EntityPositionLedger, broker: SimBroker,
                   result: BacktestResult, ghost initial: real)
    returns (r: Outcome<RunError>, swapped: set<Id>, ghost stages: seq<Stage>)
    requires broker.day == day && InOrder(ledger, broker, result, initial) && SlotsOf(ledger.positions, setup) && result.OnlyBuysRejected()
    requires Pooled(held, newcomers, ledger.positions)
    modifies ledger, broker`cash, broker`holdings, broker`orders, broker`nextId, result`trades, result`rejected
    ensures result.OnlyBuysRejected()
    ensures r.Pass? ==>
      && InOrder(ledger, broker, result, initial) && SlotsOf(ledger.positions, setup)
      && stages != [] && SwapChain(stages, held, newcomers, With(day, setup, broker))
      && stages[0] == old(At(ledger, broker, result)) && stages[|stages| - 1] == At(ledger, broker, result)
      && SwapsMade(|stages| - 1, held, newcomers, setup.swapGap)
      && SwappedSoFar(|stages| - 1, held, newcomers, old(ledger.positions), ledger.positions) && swapped == GoneIds(held, |stages| - 1)
      && OwnersKept(old(ledger.positions), ledger.positions)
    ensures Sound(old(ledger.positions), day, setup, broker.frames, broker.policy) && AllEntities(newcomers, setup) ==>
      r.Pass? && Sound(ledger.positions, day, setup, broker.frames, broker.policy)
  {
    hide Balanced, Accounted, SlotsKept, Pooled, ActiveTickers, Swapped, SwapLeaves, OpenIds, GoneIds, SwappedSoFar, Sound, OwnersKept, IsEntity, SwapChain;
    r, swapped, stages := Pass, {}, [At(ledger, broker, result)];
    ghost var today := With(day, setup, broker);
    ghost var start := ledger.positions;
    NothingSwapped(held, newcomers, start);
    NothingLeaves(start);
    SameOwners(start);
    NoStageYet(stages[0], held, newcomers, today);
    var k := 0;
    while k < |held| && k < |newcomers|
      invariant 0 <= k <= |held| && k <= |newcomers|
      invariant |stages| == k + 1 && stages[0] == old(At(ledger, broker, result)) && stages[k] == At(ledger, broker, result)
      invariant SwapChain(stages, held, newcomers, today)
      invariant InOrder(ledger, broker, result, initial) && SlotsOf(ledger.positions, setup) && result.OnlyBuysRejected()
      invariant SwappedSoFar(k, held, newcomers, start, ledger.positions) && swapped == GoneIds(held, k)
      invariant forall j :: 0 <= j < k ==> newcomers[j].score - held[j].score >= setup.swapGap
      invariant OwnersKept(start, ledger.positions) && r.Pass?
      invariant Sound(start, day, setup, broker.frames, broker.policy) && AllEntities(newcomers, setup) ==>
        Sound(ledger.positions, day, setup, broker.frames, broker.policy)
    {
      if newcomers[k].score - held[k].score < setup.swapGap { break; }
      ghost var before := ledger.positions;
      NextStillFree(k, held, newcomers, start, before);
      r := SwapOne(day, held[k].id, newcomers[k], setup, ledger, broker, result, initial);
      if r.Raise? { return; }
      OwnersChain(start, before, ledger.positions);
      OneMoreSwapped(k, held, newcomers, start, before, ledger.positions);
      OneMoreSwap(held, newcomers, k);
      swapped := swapped + {held[k].id};
      OneMoreStage(stages, held, newcomers, At(ledger, broker, result), today);
      stages := stages + [At(ledger, broker, result)];
      k := k + 1;
    }
  }

  ghost predicate AllEntities(newcomers: seq<NewRow>, setup: Setup) {
    forall j :: 0 <= j < |newcomers| ==> IsEntity(newcomers[j].cand.entity, newcomers[j].cand.ticker, setup)
  }

  /** When all slots are taken, trade the weakest profitable positions for stronger newcomers. */
  method ExecuteScoreSwaps(day: int, cands: seq<BuyCandidate>, ds: seq<BuyDecision>, setup: Setup, ledger: EntityPositionLedger, broker: SimBroker,
                           result: BacktestResult, ghost initial: real)
    returns (r: Outcome<RunError>, swapped: set<Id>, ghost t: SwapTrace)
    requires broker.day == day && InOrder(ledger, broker, result, initial) && SlotsOf(ledger.positions, setup) && result.OnlyBuysRejected()
    modifies ledger, broker`cash, broker`holdings, broker`orders, broker`nextId, result`trades, result`rejected
    ensures result.OnlyBuysRejected()
    ensures r.Pass? ==>
      var start := old(ledger.positions);
      && InOrder(ledger, broker, result, initial) && SlotsOf(ledger.positions, setup)
      && (exists tickers :: SwapLeaves(start, ledger.positions, swapped, tickers))
      && SwapsAsSpecified(t, old(At(ledger, broker, result)), At(ledger, broker, result), swapped, cands, ds, With(day, setup, broker))
      && (ledger.positions == start || Full(start, setup)) && OwnersKept(start, ledger.positions)
    ensures Sound(old(ledger.positions), day, setup, broker.frames, broker.policy) && Reliable(cands, setup) ==>
      r.Pass? && Sound(ledger.positions, day, setup, broker.frames, broker.policy)
  {
    hide Balanced, Accounted, SlotsKept, SlotsOf, IsNewcomerPool, IsHeldPool, Pooled, ActiveTickers, Swapped, EntitiesOf, SwapLeaves, OpenIds;
    hide GoneIds, SwappedSoFar, Sound, OwnersKept, Reliable, AllEntities, SwapChain, SwapsMade, BacktestResult.OnlyBuysRejected;
    r, swapped, t := Pass, {}, SwapTrace([], [], []);
    ghost var start := ledger.positions;
    NothingLeaves(start);
    SameOwners(start);
    if !setup.swapEnabled { return; }
    var slots := MaxSlots(setup.params);
    if slots <= 0 { return; }
    var ids := ledger.OpenPositions();
    var openTickers := ActiveTickers(ledger.positions);
    if |openTickers| < slots { return; }
    var aPool := HeldPool(day, ids, ledger.positions, broker.frames, cands, setup.swapMetric, false, setup);
    var bPool := NewcomerPool(cands, openTickers, EntitiesOf(ledger.positions), ds, setup.swapMetric, true, setup.params);
    PoolsAreDistinct(aPool, bPool, start, broker.frames, cands, EntitiesOf(start), ds, day, false, setup.swapMetric, true, setup);
    NewcomersAreReliable(bPool, cands, ActiveTickers(start), EntitiesOf(start), ds, setup.swapMetric, true, setup);
    ghost var stages;
    r, swapped, stages := SwapPairs(day, aPool, bPool, setup, ledger, broker, result, initial);
    if r.Raise? { return; }
    t := SwapTrace(aPool, bPool, stages);
    SwapsDone(|stages| - 1, aPool, bPool, start, ledger.positions);
  }

  lemma SwapsDone(n: nat, held: seq<HeldRow>, newcomers: seq<NewRow>, start: map<Id, Position>, now: map<Id, Position>)
    requires SwappedSoFar(n, held, newcomers, start, now)
    ensures n <= |held| && n <= |newcomers| && exists tickers :: SwapLeaves(start, now, GoneIds(held, n), tickers)
    ensures forall id :: id in GoneIds(held, n) ==> id in now && now[id].openShares == 0
  {
    hide SwapLeaves, GoneIds;
  }
}
