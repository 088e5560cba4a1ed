/** What swaps compare: candidates and held positions by their scores. */
module SwapFacts {
  import opened Common
  import opened Orders
  import opened Sorting
  import opened LedgerSpec
  import opened Market
  import opened Allocation
  import opened RunSpec
  import opened Steps
  import opened Swaps

  /** An entity's candidate is the last one under its name. */
  lemma {:induction false} LastOfEntity(cands: seq<BuyCandidate>, entity: string)
    ensures CandidateOf(cands, entity).None? <==> forall c :: c in cands ==> c.entity != entity
    ensures forall k :: 0 <= k < |cands| && cands[k].entity == entity && (forall j :: k < j < |cands| ==> cands[j].entity != entity) ==>
      CandidateOf(cands, entity) == Some(cands[k])
  {
    if cands != [] && cands[|cands| - 1].entity != entity {
      var front := cands[..|cands| - 1];
      LastOfEntity(front, entity);
      assert forall c :: c in cands <==> c in front || c == cands[|cands| - 1];
      forall k | 0 <= k < |cands| && cands[k].entity == entity && forall j :: k < j < |cands| ==> cands[j].entity != entity
        ensures CandidateOf(cands, entity) == Some(cands[k])
      {
        assert front[k] == cands[k];
      }
    }
  }

  /** A held position is worth what today's candidate of its entity is, by confidence or by the weighted score; without one, what its
      entity's confidence gives; and nothing is known of one whose entity is not of the run. */
  lemma HeldScoreExactly(entity: string, metric: ScoreMetric, cands: seq<BuyCandidate>, setup: Setup, k: nat)
    ensures var held := HeldScore(entity, metric, cands, setup);
      && (held.None? <==> entity !in setup.entities && forall c :: c in cands ==> c.entity != entity)
      && (k < |cands| && cands[k].entity == entity && (forall j :: k < j < |cands| ==> cands[j].entity != entity) ==>
            held.value == if metric == ByConfidence then cands[k].confidence
                          else setup.params.confidenceWeight * cands[k].confidence + setup.params.strengthWeight * cands[k].strength)
      && (entity in setup.entities && (forall c :: c in cands ==> c.entity != entity) ==>
            held.value == if metric == ByConfidence then setup.entities[entity].confidence
                          else setup.params.confidenceWeight * setup.entities[entity].confidence)
  {
    hide Score;
    LastOfEntity(cands, entity);
    if k < |cands| { ScoreIs(cands[k], setup.params); }
  }

  /** The weakest goes first, and among equals the one with the smaller id. */
  lemma WeakestGoesFirst(pool: seq<HeldRow>, positions: map<Id, Position>, frames: map<string, Frame>, cands: seq<BuyCandidate>,
                         metric: ScoreMetric, guarded: bool, day: int, setup: Setup, i: nat, j: nat)
    requires IsHeldPool(pool, positions, frames, cands, metric, guarded, day, setup) && i < j < |pool|
    ensures pool[i].score < pool[j].score || (pool[i].score == pool[j].score && pool[i].id < pool[j].id)
  {
    hide HeldScore, MayMakeWay;
    assert WeakestFirst()(pool[i], pool[j]);
    assert IdOf()(pool[i]) != IdOf()(pool[j]);
  }

  /** A greater score goes first, among equals the greater entity; the score swaps put a score of zero behind all others. */
  lemma LeadsExactlyWhen(a: BuyCandidate, b: BuyCandidate, metric: ScoreMetric, zeroLast: bool, params: Params)
    ensures var x, y := CandidateScore(a, metric, params), CandidateScore(b, metric, params);
      && (!zeroLast || (x != 0.0 && y != 0.0) || (x == 0.0 && y == 0.0) ==>
            (Leads(a, b, metric, zeroLast, params) <==> x > y || (x == y && !StrLess(a.entity, b.entity))))
      && (zeroLast && x != 0.0 && y == 0.0 && x > LEAST_RANK ==> Leads(a, b, metric, zeroLast, params) && !Leads(b, a, metric, zeroLast, params))
  {
    hide CandidateScore;
  }

  /** Whoever is in the pool of newcomers is new: its ticker and entity are neither held nor decided on today, it has a price, enough
      confidence and a positive weighted score; and whoever is all that has one of its ticker in the pool that ranks no lower. */
  lemma NewcomersAreNew(pool: seq<NewRow>, cands: seq<BuyCandidate>, positions: map<Id, Position>, ds: seq<BuyDecision>,
                        metric: ScoreMetric, zeroLast: bool, params: Params, c: BuyCandidate)
    requires IsNewcomerPool(pool, cands, ActiveTickers(positions), EntitiesOf(positions), ds, metric, zeroLast, params)
    ensures (exists n :: n in pool && n.cand == c) ==> IsNew(c, cands, positions, ds, params)
    ensures IsNew(c, cands, positions, ds, params) ==>
      exists n :: n in pool && n.cand.ticker == c.ticker && Leads(n.cand, c, metric, zeroLast, params)
  {
    hide Leads, CandidateScore, Unheld, Tradable, IsNew, StrongestFirst, DistinctBy, SortedBy, ActiveTickers, EntitiesOf;
    NewExactlyWhen(c, cands, positions, ds, params);
    if IsNew(c, cands, positions, ds, params) { assert Represented(c, pool, metric, zeroLast, params); }
  }

  lemma NewExactlyWhen(c: BuyCandidate, cands: seq<BuyCandidate>, positions: map<Id, Position>, ds: seq<BuyDecision>, params: Params)
    ensures IsNew(c, cands, positions, ds, params) <==> c in cands && Unheld(c, ActiveTickers(positions), EntitiesOf(positions), ds) && Tradable(c, params)
  {
    hide Score;
    ScoreIs(c, params);
  }

  ghost predicate IsNew(c: BuyCandidate, cands: seq<BuyCandidate>, positions: map<Id, Position>, ds: seq<BuyDecision>, params: Params) {
    && c in cands && c.ticker != ""
    && (forall id :: id in positions && positions[id].openShares > 1 ==> positions[id].ticker != c.ticker && positions[id].entity != c.entity)
    && (forall d :: d in ds ==> c.ticker != d.ticker) && (forall d :: d in ds ==> c.entity != d.entity)
    && c.price > 0.0 && (params.minConfidence.Some? ==> c.confidence >= params.minConfidence.value)
    && params.confidenceWeight * c.confidence + params.strengthWeight * c.strength > 0.0
  }

  /** A position may make way exactly when the day's close is above what it cost, its score is known, and the guard does not spare it. */
  lemma MakesWayExactlyWhen(id: Id, p: Position, frames: map<string, Frame>, cands: seq<BuyCandidate>, metric: ScoreMetric, guarded: bool, day: int, setup: Setup)
    ensures MayMakeWay(id, p, frames, cands, metric, guarded, day, setup) <==>
      && 0.0 < p.avg < CloseOn(frames, p.ticker, day)
      && (p.entity in setup.entities || exists c :: c in cands && c.entity == p.entity)
      && (guarded ==> !setup.outside.exitImminent(day, id))
  {
    hide CloseOn, CandidateOf;
    LastOfEntity(cands, p.entity);
  }
}

/** What single steps of a run come to, told in bars, prices, dates and money. */
module StepFacts {
  import opened Common
  import opened Orders
  import opened LedgerSpec
  import opened Market
  import opened PriceFacts
  import opened SimBrokerSpec
  import opened Allocation
  import opened RunSpec
  import opened Steps
  import opened Swaps
  import ExitPolicy
  import ExitRuns

  // ---- what a buy spends ----------------------------------------------------------

  /** The close and the ATR of a day are those of the first row dated so, and zero without one. */
  lemma DayFigures(frames: map<string, Frame>, ticker: string, day: int, i: nat)
    ensures ticker in frames && IsFirstOn(frames[ticker], day, i) ==>
              CloseOn(frames, ticker, day) == frames[ticker][i].close && AtrOn(frames, ticker, day) == frames[ticker][i].atr
    ensures ticker !in frames || (forall j :: 0 <= j < |frames[ticker]| ==> frames[ticker][j].date != day) ==>
              CloseOn(frames, ticker, day) == 0.0 == AtrOn(frames, ticker, day)
  {
    if ticker in frames { RowOnExactly(frames[ticker], day, i); }
  }

  /** The millionths of the cash that its buffer lets be spent. */
  function Spendable(cash: real, bufferRatio: real): real { 1_000_000.0 * cash * Clip(bufferRatio, 1.0) }

  /** The cash caps a request: what it asks for if the money pays for that at the close, else as much as the money pays for, to the
      nearest unit; and nothing when that is dust. */
  lemma CashCappedExactly(cash: real, requested: int, close: real, bufferRatio: real)
    ensures requested <= 0 || close <= 0.0 ==> CashCappedShares(cash, requested, close, bufferRatio) == 0
    ensures requested > 0 && close > 0.0 ==>
      var shares, money := CashCappedShares(cash, requested, close, bufferRatio), Spendable(cash, bufferRatio);
      && (shares == 0 <==> requested <= 1 || money < 1.5 * close)
      && (shares > 0 ==> shares <= requested && (shares as real - 0.5) * close <= money)
      && (0 < shares < requested ==> money <= (shares as real + 0.5) * close)
      && (requested > 1 && requested as real * close <= money ==> shares == requested)
  {
    if requested > 0 && close > 0.0 {
      var affordable := cash * CashUseRatio(bufferRatio);
      ClipIs(bufferRatio, 0.0);
      assert 1_000_000.0 * affordable == Spendable(cash, bufferRatio);
      NearestUnits(affordable, close);
      WholeRequest(requested);
      EnoughMoney(requested, affordable, close);
      CappedByEither(cash, requested, close, bufferRatio);
    }
  }

  lemma WholeRequest(requested: int)
    ensures Units(Qty(requested)) == requested
  {
    assert Qty(requested) * 1_000_000.0 == requested as real;
  }

  lemma EnoughMoney(requested: int, affordable: real, close: real)
    requires close > 0.0
    ensures Qty(requested) <= affordable / close <==> requested as real * close <= 1_000_000.0 * affordable
  {
    assert affordable / close * close == affordable;
    Compared(Qty(requested), affordable / close, close);
  }

  lemma CappedByEither(cash: real, requested: int, close: real, bufferRatio: real)
    requires requested > 0 && close > 0.0
    ensures var affordable := cash * CashUseRatio(bufferRatio) / close;
      var capped := if Qty(requested) <= affordable then Units(Qty(requested)) else Units(affordable);
      CashCappedShares(cash, requested, close, bufferRatio) == if capped > 1 then capped else 0
  {
  }

  /** The trade a bought decision ends in: within the request and within the money, and paid from the cash at the quote with the
      commission on it. */
  ghost predicate BoughtFor(d: BuyDecision, money: real, close: real, quote: (real, int), rate: real, a: Stage, b: Stage) {
    && b.log.rejected == a.log.rejected && |b.log.trades| == |a.log.trades| + 1 && b.log.trades[..|a.log.trades|] == a.log.trades
    && var t := b.log.trades[|a.log.trades|];
       && t.entity == d.entity && t.ticker == d.ticker && t.side == Buy && (t.price, t.date) == quote
       && 1 < t.shares <= d.shares && (t.shares as real - 0.5) * close <= money && (t.shares < d.shares ==> money <= (t.shares as real + 0.5) * close)
       && 1_000_000.0 * b.cash == 1_000_000.0 * a.cash - t.shares as real * quote.0 * (1.0 + rate)
  }

  /** A decision that asks for more than dust, with more money at hand than dust, is bought, and not turned down, whenever the cash
      covers at the quote, commission included, all that the buffer lets be spent at the close and half a unit more. So the cap keeps
      a request that is too dear from being turned down. */
  lemma CappedOrderFills(d: BuyDecision, a: Stage, b: Stage, today: Today)
    requires CarriedOut(d, a, b, today) && d.shares > 1 && today.policy.commissionRate >= -1.0
    requires QuoteOn(today.frames, today.policy, d.ticker, Buy, today.day).0 >= 0.0 && CloseOn(today.frames, d.ticker, today.day) > 0.0
    requires var close, quote := CloseOn(today.frames, d.ticker, today.day), QuoteOn(today.frames, today.policy, d.ticker, Buy, today.day).0;
      var money := Spendable(a.cash, today.setup.params.cashBufferRatio);
      money >= 1.5 * close && (money + 0.5 * close) * (quote * (1.0 + today.policy.commissionRate)) <= (1_000_000.0 * a.cash + 1.0) * close
    ensures BoughtFor(d, Spendable(a.cash, today.setup.params.cashBufferRatio), CloseOn(today.frames, d.ticker, today.day),
                      QuoteOn(today.frames, today.policy, d.ticker, Buy, today.day), today.policy.commissionRate, a, b)
  {
    hide CashCappedShares, CloseOn, QuoteOn, AtrOn, BoughtAs, TooDear, CashAfterBuy, Spendable;
    var close, quote := CloseOn(today.frames, d.ticker, today.day), QuoteOn(today.frames, today.policy, d.ticker, Buy, today.day);
    var money, rate := Spendable(a.cash, today.setup.params.cashBufferRatio), today.policy.commissionRate;
    CashCappedExactly(a.cash, d.shares, close, today.setup.params.cashBufferRatio);
    var shares := AffordedShares(d, a.cash, today.frames, today.day, today.setup.params);
    RoomForOrder(shares, close, quote.0, rate, money, a.cash);
    OrderMoney(a.cash, shares, quote.0, rate);
  }

  lemma RoomForOrder(shares: int, close: real, quote: real, rate: real, money: real, cash: real)
    requires close > 0.0 && quote >= 0.0 && rate >= -1.0 && (shares as real - 0.5) * close <= money
    requires (money + 0.5 * close) * (quote * (1.0 + rate)) <= (1_000_000.0 * cash + 1.0) * close
    ensures !TooDear(cash, shares, quote, rate)
  {
    var unit := quote * (1.0 + rate);
    assert unit >= 0.0;
    assert shares as real * close <= money + 0.5 * close;
    ScaleBound(shares as real * close, money + 0.5 * close, unit);
    assert shares as real * close * unit == shares as real * unit * close;
    Compared(shares as real * unit, 1_000_000.0 * cash + 1.0, close);
    MoneyInUnits(shares, quote, rate);
  }

  lemma OrderMoney(cash: real, shares: int, quote: real, rate: real)
    ensures 1_000_000.0 * CashAfterBuy(cash, shares, quote, rate) == 1_000_000.0 * cash - shares as real * quote * (1.0 + rate)
  {
    MoneyInUnits(shares, quote, rate);
  }

  /** A swap buys what the proceeds, or the cash if that is less, pay for less the buffer, to the nearest unit. */
  lemma SwapBuysForProceeds(proceeds: real, cash: real, close: real, bufferRatio: real)
    requires close > 0.0 && proceeds >= 0.0 && cash >= 0.0
    ensures var shares, money := SwapShares(proceeds, cash, close, bufferRatio), Spendable(if proceeds <= cash then proceeds else cash, bufferRatio);
      && (shares == 0 <==> money < 1.5 * close)
      && (shares > 0 ==> (shares as real - 0.5) * close <= money <= (shares as real + 0.5) * close)
  {
    hide CashCappedShares, Units, Spendable;
    var most := MinR(proceeds, cash);
    NearestUnits(most, close);
    CashCappedExactly(most, Units(most / close), close, bufferRatio);
    SpendableAtMost(most, bufferRatio);
  }

  lemma SpendableAtMost(cash: real, bufferRatio: real)
    requires cash >= 0.0
    ensures Spendable(cash, bufferRatio) <= 1_000_000.0 * cash
  {
    ScaleBound(Clip(bufferRatio, 1.0), 1.0, 1_000_000.0 * cash);
  }

  // ---- what a bar does to a position ----------------------------------------------

  /** The highest price known of a position before the bar. */
  function Known(p: Position): real { if p.high != 0.0 then p.high else p.avg }

  function PeakWith(p: Position, bar: Bar): real { MaxR(Known(p), MaxR(bar.high, bar.close)) }

  /** The trailing stop follows a new peak at its distance, and never falls. */
  function LevelWith(p: Position, bar: Bar): real {
    if PeakWith(p, bar) > Known(p) then MaxR(p.policy.trailingStop, PeakWith(p, bar) - p.policy.trailingDistance) else p.policy.trailingStop
  }

  /** On row i a position has been held for as many rows as lie between the first row of its entry date and it. */
  ghost predicate HeldFor(days: int, f: Frame, entryDate: int, i: nat) {
    || (exists e :: IsFirstOn(f, entryDate, e) && days == if i >= e then i - e else 0)
    || ((forall j :: 0 <= j < |f| ==> f[j].date != entryDate) && days == i)
  }

  /** The bar calls for the exit. Backtests judge in base mode: a trailing stop counts from the third day on in profit, and targets
      are off. */
  ghost predicate CallsFor(reason: ExitPolicy.Reason, p: Position, bar: Bar, days: int, rb: ExitPolicy.Rulebook) {
    match reason
    case StopLoss => bar.low <= p.policy.stop
    case BreakevenStop =>
      && rb.breakevenEnabled.GetOr(rb.breakevenTrigger.GetOr(0.0) > 0.0)
      && ExitRuns.InProfit(PeakWith(p, bar), p.avg, rb.breakevenTrigger.GetOr(0.0))
      && bar.low <= p.avg * (1.0 + rb.breakevenFloor.GetOr(0.0) / 100.0)
    case SellOmen =>
      && rb.sellOmenEnabled == Some(true) && bar.omen.Some?
      && (bar.omen.value >= rb.sellOmenThreshold.GetOr(1.0) || bar.omen.value >= 1.0 || rb.sellOmenThreshold.GetOr(1.0) <= 0.0)
    case TrailingExit => days > 2 && ExitRuns.InProfit(PeakWith(p, bar), p.avg, 0.0) && bar.low <= LevelWith(p, bar)
    case TakeProfit => false
    case TimeOut => days >= p.policy.maxHoldingDays
  }

  lemma CallsAreTriggers(p: Position, f: Frame, i: nat, days: int, rb: ExitPolicy.Rulebook, reason: ExitPolicy.Reason)
    requires i < |f|
    ensures var state, price, cfg := PositionStateOf(p), SnapshotAt(f, i), ExitConfig(rb, f[i].omen);
      && ExitRuns.IsPeak(PeakWith(p, f[i]), state, price, ExitPolicy.Base)
      && ExitRuns.IsTrailingLevel(LevelWith(p, f[i]), PeakWith(p, f[i]), state, ExitPolicy.Base)
      && (CallsFor(reason, p, f[i], days, rb) <==>
            ExitRuns.Triggers(reason, state, price, rb, ExitContext(days), cfg, PeakWith(p, f[i]), LevelWith(p, f[i])))
  {
  }

  lemma DaysAreHeld(days: int, f: Frame, entryDate: int, i: nat)
    requires HeldFor(days, f, entryDate, i)
    ensures HoldingDays(f, entryDate, i) == days
  {
    if e :| IsFirstOn(f, entryDate, e) && days == (if i >= e then i - e else 0) {
      RowOnExactly(f, entryDate, e);
    } else {
      RowOnExactly(f, entryDate, 0);
    }
  }

  /** A position must go exactly when today's bar calls for an exit its strategy listens to; without its entity or a bar it stays. */
  lemma MustExitExactlyWhen(p: Position, frames: map<string, Frame>, day: int, setup: Setup, i: nat, days: int)
    requires p.entity in setup.entities && p.ticker in frames && IsFirstOn(frames[p.ticker], day, i) && HeldFor(days, frames[p.ticker], p.entryDate, i)
    ensures MustExit(p, frames, day, setup) <==>
      exists reason :: ExitRuns.Listens(p.policy.strategy.GetOr(ExitPolicy.Hybrid), reason)
                    && CallsFor(reason, p, frames[p.ticker][i], days, setup.entities[p.entity].rulebook)
  {
    hide ExitPolicy.EvaluateExit, CallsFor, ExitRuns.Listens, ExitRuns.Triggers, ExitRuns.IsPeak, ExitRuns.IsTrailingLevel;
    var f, rb := frames[p.ticker], setup.entities[p.entity].rulebook;
    RowOnExactly(f, day, i);
    DaysAreHeld(days, f, p.entryDate, i);
    forall reason
      ensures CallsFor(reason, p, f[i], days, rb) <==>
        ExitRuns.Triggers(reason, PositionStateOf(p), SnapshotAt(f, i), rb, ExitContext(days), ExitConfig(rb, f[i].omen), PeakWith(p, f[i]), LevelWith(p, f[i]))
    {
      CallsAreTriggers(p, f, i, days, rb, reason);
    }
    CallsAreTriggers(p, f, i, days, rb, ExitPolicy.StopLoss);
    ExitRuns.ExitExactlyWhen(PositionStateOf(p), SnapshotAt(f, i), rb, ExitContext(days), ExitConfig(rb, f[i].omen), PeakWith(p, f[i]), LevelWith(p, f[i]),
                             ExitPolicy.StopLoss, 0.0);
  }

  /** What the record carries on after a bar: peak and trailing stop, and the strategy it is judged by. */
  function CarriedOn(p: Position, bar: Bar): Position {
    p.(high := PeakWith(p, bar), policy := p.policy.(trailingStop := LevelWith(p, bar), strategy := Some(p.policy.strategy.GetOr(ExitPolicy.Hybrid))))
  }

  lemma AfterExitExactly(p: Position, frames: map<string, Frame>, policy: FillPolicy, day: int, setup: Setup, i: nat)
    ensures p.entity in setup.entities && p.ticker in frames && IsFirstOn(frames[p.ticker], day, i) ==>
      var carried := CarriedOn(p, frames[p.ticker][i]);
      AfterExit(p, frames, policy, day, setup) ==
        if MustExit(p, frames, day, setup) then SellFrom(carried, p.openShares, QuoteOn(frames, policy, p.ticker, Sell, day).0) else carried
    ensures p.entity !in setup.entities || p.ticker !in frames || (forall j :: 0 <= j < |frames[p.ticker]| ==> frames[p.ticker][j].date != day) ==>
      AfterExit(p, frames, policy, day, setup) == p && !MustExit(p, frames, day, setup)
  {
    hide ExitPolicy.BarSignals, ExitPolicy.ChooseExit, SellFrom, QuoteOn;
    if p.ticker in frames { RowOnExactly(frames[p.ticker], day, i); }
  }

  /** A first entry gets its levels from the rulebook: off the price paid by multiples of the ATR, or of two percent of the price
      without one; a later buy into a position leaves them. */
  lemma EntryRecordExactly(p: Position, d: BuyDecision, rb: ExitPolicy.Rulebook, shares: int, price: real, atr: real)
    ensures var q, range := Entered(p, d, rb, shares, price, atr), if atr > 0.0 then atr else price / 50.0;
      if d.purpose != "entry" then q == p
      else
        && price - q.policy.stop == range * rb.stopLossAtr.GetOr(2.0) && q.policy.target - price == range * rb.takeProfitAtr.GetOr(3.0)
        && q.policy.trailingDistance == range * rb.trailingAtr.GetOr(1.5) && q.policy.trailingStop == price - q.policy.trailingDistance
        && q.policy.atr == range && q.policy.maxHoldingDays == rb.maxHoldingDays.GetOr(20) && q.policy.strategy == Some(rb.strategy.GetOr(ExitPolicy.Hybrid))
        && q.high == price && q == p.(policy := q.policy, high := q.high)
  {
    assert price * 0.02 == price / 50.0;
  }
}
