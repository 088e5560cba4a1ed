/** The daily loop around ledger and broker, and the final account. */
module Backtester {
  import opened Common
  import opened Orders
  import opened Sums
  import opened LedgerSpec
  import opened EntityLedger
  import opened Market
  import opened SimBrokerSpec
  import opened SimBrokers
  import opened Books
  import opened Trading
  import opened Allocation
  import opened Slots
  import opened DayBooks
  import opened RunSpec
  import opened Steps
  import opened Swaps
  import opened SwapFacts
  import opened SwapQueue

  // ---- the decisions of the day ---------------------------------------------------

  /** What the decisions from `k` on still need from the open positions when they are carried out unchecked. */
  ghost predicate StillFit(ds: seq<BuyDecision>, k: nat, positions: map<Id, Position>, swapped: set<Id>, setup: Setup)
    requires k <= |ds|
  {
    && (forall i :: k <= i < |ds| && ds[i].purpose == "add_buy" ==> ds[i].target.Some? && (ds[i].target.value in swapped || ds[i].target.value in OpenIds(positions)))
    && (forall i :: k <= i < |ds| && ds[i].purpose != "add_buy" ==> OneTickerEach(setup) ==> ds[i].ticker !in ActiveTickers(positions))
    && (CountEntryDecisions(ds[k..]) == 0 || |OpenIds(positions)| + CountEntryDecisions(ds[k..]) <= MaxSlots(setup.params))
  }

  lemma {:induction false} CountFromFront(ds: seq<BuyDecision>)
    requires ds != []
    ensures CountEntryDecisions(ds) == CountEntryDecisions(ds[1..]) + if ds[0].purpose != "add_buy" then 1 else 0
  {
    if |ds| > 1 {
      CountFromFront(ds[..|ds| - 1]);
      assert ds[..|ds| - 1][1..] == ds[1..][..|ds| - 2];
    }
  }

  /** Fresh decisions fit the positions they were made on, and still do after the swaps of the day. */
  lemma FitAfterSwaps(ds: seq<BuyDecision>, start: map<Id, Position>, now: map<Id, Position>, swapped: set<Id>, tickers: set<string>, setup: Setup)
    requires FitOpenPositions(ds, start, setup.params) && SlotsOf(start, setup) && SwapLeaves(start, now, swapped, tickers)
    requires now == start || |ActiveTickers(start)| >= MaxSlots(setup.params)
    requires !setup.queueEnabled
    ensures StillFit(ds, 0, now, swapped, setup)
  {
    TickersAtMostPositions(start);
    assert ds[0..] == ds;
    if now != start {
      NoEntries(ds);
    }
  }

  lemma {:induction false} NoEntries(ds: seq<BuyDecision>)
    requires CountEntryDecisions(ds) == 0
    ensures forall i :: 0 <= i < |ds| ==> ds[i].purpose == "add_buy"
  {
    if ds != [] { NoEntries(ds[..|ds| - 1]); }
  }

  lemma FitAfterOne(ds: seq<BuyDecision>, k: nat, before: map<Id, Position>, now: map<Id, Position>, swapped: set<Id>, setup: Setup)
    requires k < |ds| && StillFit(ds, k, before, swapped, setup) && DistinctDecisions(ds, setup.params) && !setup.queueEnabled
    requires SwapLeaves(before, now, {}, if ds[k].purpose == "add_buy" then {} else {ds[k].ticker})
    requires |OpenIds(now)| <= |OpenIds(before)| + if ds[k].purpose == "add_buy" then 0 else 1
    ensures StillFit(ds, k + 1, now, swapped, setup)
  {
    CountFromFront(ds[k..]);
    assert ds[k..][1..] == ds[k + 1..];
  }

  /** Carry out the decisions of the day, except add-buys to positions that were swapped away. Without the queue every
      other decision is carried out; with it, only those that are still allowed when their turn comes. */
  method ExecuteDecisions(day: int, ds: seq<BuyDecision>, swapped: set<Id>, setup: Setup, ledger: EntityPositionLedger, broker: SimBroker,
                          result: BacktestResult, ghost initial: real)
    returns (r: Outcome<RunError>, ghost stages: seq<Stage>)
    requires broker.day == day && InOrder(ledger, broker, result, initial) && SlotsOf(ledger.positions, setup) && result.OnlyBuysRejected()
    requires DistinctDecisions(ds, setup.params) && forall i :: 0 <= i < |ds| ==> Aimed(ds[i])
    requires !setup.queueEnabled ==> StillFit(ds, 0, ledger.positions, swapped, setup)
    modifies ledger, broker`cash, broker`holdings, broker`orders, broker`nextId, result`trades, result`rejected
    ensures result.OnlyBuysRejected()
    ensures r.Pass? ==>
      && InOrder(ledger, broker, result, initial) && SlotsOf(ledger.positions, setup)
      && DecisionChain(stages, ds, false, swapped, With(day, setup, broker))
      && |stages| == |ds| + 1 && stages[0] == old(At(ledger, broker, result)) && stages[|ds|] == At(ledger, broker, result)
    ensures Sound(old(ledger.positions), day, setup, broker.frames, broker.policy) && AllPlaceable(ds, old(ledger.positions), setup) ==>
      r.Pass? && Sound(ledger.positions, day, setup, broker.frames, broker.policy)
  {
    hide Balanced, Accounted, SlotsKept, BuyOutcome, SwapLeaves, CarriedOut, StillFit, StillAllowed, Sound, OwnersKept, AllPlaceable, DecisionChain, Due;
    r, stages := Pass, [At(ledger, broker, result)];
    ghost var today := With(day, setup, broker);
    NoTurnYet(stages[0], ds, false, swapped, today);
    for k := 0 to |ds|
      invariant InOrder(ledger, broker, result, initial) && SlotsOf(ledger.positions, setup) && result.OnlyBuysRejected()
      invariant !setup.queueEnabled ==> StillFit(ds, k, ledger.positions, swapped, setup)
      invariant r.Pass?
      invariant Sound(old(ledger.positions), day, setup, broker.frames, broker.policy) && AllPlaceable(ds, old(ledger.positions), setup) ==>
        Sound(ledger.positions, day, setup, broker.frames, broker.policy) && AllPlaceable(ds, ledger.positions, setup)
      invariant |stages| == k + 1 && stages[0] == old(At(ledger, broker, result)) && stages[k] == At(ledger, broker, result)
      invariant DecisionChain(stages, ds, false, swapped, today)
    {
      var d := ds[k];
      ghost var before := ledger.positions;
      DueToday(d, before, swapped, setup);
      if (d.target.Some? && d.target.value in swapped) || (setup.queueEnabled && !StillAllowed(d, ledger.positions, setup.params)) {
        PassedOver(ds, k, before, swapped, setup);
      } else {
        if AllPlaceable(ds, before, setup) { OneIsPlaceable(ds, k, before, setup); }
        if d.entity !in setup.entities { r := Raise(MissingEntity); return; }
        r := ExecuteBuy(day, d, setup, ledger, broker, result, initial);
        if r.Raise? { return; }
        if AllPlaceable(ds, before, setup) { StillPlaceable(ds, before, ledger.positions, setup); }
        DecisionTaken(ds, k, before, ledger.positions, swapped, setup);
      }
      OneMoreTurn(stages, ds, At(ledger, broker, result), false, swapped, today);
      stages := stages + [At(ledger, broker, result)];
    }
  }

  lemma DueToday(d: BuyDecision, positions: map<Id, Position>, swapped: set<Id>, setup: Setup)
    ensures Due(d, positions, false, swapped, setup) <==>
              !(d.target.Some? && d.target.value in swapped) && (setup.queueEnabled ==> StillAllowed(d, positions, setup.params))
  {
    hide StillAllowed;
  }

  lemma PassedOver(ds: seq<BuyDecision>, k: nat, positions: map<Id, Position>, swapped: set<Id>, setup: Setup)
    requires k < |ds| && DistinctDecisions(ds, setup.params) && Aimed(ds[k])
    requires setup.queueEnabled || (ds[k].target.Some? && ds[k].target.value in swapped && StillFit(ds, k, positions, swapped, setup))
    ensures !setup.queueEnabled ==> StillFit(ds, k + 1, positions, swapped, setup)
  {
    hide StillFit;
    if !setup.queueEnabled {
      NothingLeaves(positions);
      FitAfterOne(ds, k, positions, positions, swapped, setup);
    }
  }

  /** A decision that was carried out keeps the slot rule, and leaves the rest fitting. */
  lemma DecisionTaken(ds: seq<BuyDecision>, k: nat, before: map<Id, Position>, now: map<Id, Position>, swapped: set<Id>, setup: Setup)
    requires k < |ds| && SlotsOf(before, setup) && Aimed(ds[k]) && (ds[k].target.None? || ds[k].target.value !in swapped)
    requires if setup.queueEnabled then StillAllowed(ds[k], before, setup.params) else StillFit(ds, k, before, swapped, setup)
    requires DistinctDecisions(ds, setup.params) && BuyOutcome(before, now, ds[k].entity, ds[k].ticker, ds[k].target)
    ensures SlotsOf(now, setup) && (!setup.queueEnabled ==> StillFit(ds, k + 1, now, swapped, setup))
  {
    hide StillFit, StillAllowed, BuyOutcome, SwapLeaves, SlotsOf, OpenIds, ActiveTickers;
    DecisionFitsNow(ds, k, before, swapped, setup);
    DecisionKeepsSlots(before, now, ds[k], setup);
    if !setup.queueEnabled { FitAfterOne(ds, k, before, now, swapped, setup); }
  }

  /** The decision at hand fits the open positions: still checked with the queue, still true of fresh decisions without. */
  lemma DecisionFitsNow(ds: seq<BuyDecision>, k: nat, positions: map<Id, Position>, swapped: set<Id>, setup: Setup)
    requires k < |ds| && SlotsOf(positions, setup) && Aimed(ds[k]) && (ds[k].target.None? || ds[k].target.value !in swapped)
    requires if setup.queueEnabled then StillAllowed(ds[k], positions, setup.params) else StillFit(ds, k, positions, swapped, setup)
    ensures ds[k].purpose == "add_buy" ==> ds[k].target.value in OpenIds(positions)
    ensures ds[k].purpose != "add_buy" ==> |OpenIds(positions)| < MaxSlots(setup.params) && (OneTickerEach(setup) ==> ds[k].ticker !in ActiveTickers(positions))
  {
    if setup.queueEnabled {
      if ds[k].purpose != "add_buy" { AllowedFits(ds[k], positions, setup); }
    } else {
      CountFromFront(ds[k..]);
    }
  }

  // ---- the day and the run --------------------------------------------------------

  /** The candidates with an outside score, confident enough, with the score in the place of their confidence. */
  function Scored(cands: seq<BuyCandidate>, scores: map<string, real>, params: Params): seq<BuyCandidate> {
    if cands == [] then []
    else
      var front, c := Scored(cands[..|cands| - 1], scores, params), cands[|cands| - 1];
      if c.entity in scores && !BelowMinConfidence(c, params) then front + [c.(confidence := scores[c.entity], strength := 0.0)] else front
  }

  /** Score alone decides the first choice, and every choice weighs the same. */
  function SelectionParams(params: Params): Params {
    params.(confidenceWeight := 1.0, strengthWeight := 0.0, minConfidence := None, sizing := Equal)
  }

  /** The candidates behind the first choice, as they were. */
  function Originals(chosen: seq<BuyDecision>, cands: seq<BuyCandidate>): seq<BuyCandidate> {
    if chosen == [] then []
    else
      var front, c := Originals(chosen[..|chosen| - 1], cands), CandidateOf(cands, chosen[|chosen| - 1].entity);
      if c.Some? then front + [c.value] else front
  }

  /** Who competes for the first choice: exactly the candidates with an outside score that are confident enough. */
  lemma {:induction false} ScoredExactly(cands: seq<BuyCandidate>, scores: map<string, real>, params: Params, c: BuyCandidate)
    ensures c in Scored(cands, scores, params) <==>
      exists o :: o in cands && o.entity in scores && !BelowMinConfidence(o, params) && c == o.(confidence := scores[o.entity], strength := 0.0)
  {
    if cands != [] {
      var front, last := cands[..|cands| - 1], cands[|cands| - 1];
      ScoredExactly(front, scores, params, c);
      assert forall o :: o in cands <==> o in front || o == last;
    }
  }

  /** And there the outside score is the whole score, nobody is held back for confidence, and all get equal shares. */
  lemma ScoreDecidesFirst(cands: seq<BuyCandidate>, scores: map<string, real>, params: Params, c: BuyCandidate, selected: seq<Allocation.Row>, i: nat)
    requires c in Scored(cands, scores, params) && i < |selected|
    ensures c.entity in scores && Score(c, SelectionParams(params)) == scores[c.entity] && !BelowMinConfidence(c, SelectionParams(params))
    ensures var weights := Weights(ScoresOf(selected), SelectionParams(params).sizing); |weights| == |selected| && weights[i] * |selected| as real == 1.0
    ensures SelectionParams(params) == params.(confidenceWeight := SelectionParams(params).confidenceWeight,
      strengthWeight := SelectionParams(params).strengthWeight, minConfidence := None, sizing := SelectionParams(params).sizing)
  {
    hide Weights;
    ScoredExactly(cands, scores, params, c);
    ScoreIs(c, SelectionParams(params));
    WeightsByScore(selected, SelectionParams(params).sizing);
  }

  /** The second choice is among the last candidates of the entities that the first one chose, in its order. */
  lemma {:induction false} OriginalsExactly(chosen: seq<BuyDecision>, cands: seq<BuyCandidate>)
    requires forall i :: 0 <= i < |chosen| ==> CandidateOf(cands, chosen[i].entity).Some?
    ensures |Originals(chosen, cands)| == |chosen|
    ensures forall i :: 0 <= i < |chosen| ==> CandidateOf(cands, chosen[i].entity) == Some(Originals(chosen, cands)[i])
  {
    hide CandidateOf;
    if chosen != [] { OriginalsExactly(chosen[..|chosen| - 1], cands); }
  }

  /** By confidence, or by an outside score first and then among those chosen, the decisions are a greedy choice within capital
      and caps. */
  ghost predicate DecidedForDay(ds: seq<BuyDecision>, first: seq<BuyDecision>, cands: seq<BuyCandidate>, positions: map<Id, Position>, setup: Setup) {
    match setup.selectionScores
    case None => WellDecided(ds, cands, positions, setup.params)
    case Some(scores) =>
      && WellDecided(first, Scored(cands, scores, setup.params), positions, SelectionParams(setup.params))
      && WellDecided(ds, Originals(first, cands), positions, setup.params)
  }

  lemma {:induction false} OriginalsAreReliable(chosen: seq<BuyDecision>, cands: seq<BuyCandidate>, setup: Setup)
    ensures Reliable(cands, setup) ==> Reliable(Originals(chosen, cands), setup)
  {
    hide IsEntity;
    if chosen != [] { OriginalsAreReliable(chosen[..|chosen| - 1], cands, setup); }
  }

  /** Decide the buys of the day, by confidence, or first by an outside score of the entities and then among those chosen. */
  method DecideForDay(cands: seq<BuyCandidate>, ledger: EntityPositionLedger, setup: Setup) returns (ds: seq<BuyDecision>, ghost first: seq<BuyDecision>)
    ensures FitOpenPositions(ds, ledger.positions, setup.params)
    ensures forall i :: 0 <= i < |ds| ==> Aimed(ds[i])
    ensures DecidedForDay(ds, first, cands, ledger.positions, setup)
    ensures Reliable(cands, setup) ==> AllPlaceable(ds, ledger.positions, setup)
  {
    hide WellDecided, FitOpenPositions, CandidateOf, Reliable, AllPlaceable;
    first := [];
    if setup.selectionScores.None? {
      ds := DecideOnOpen(cands, ledger, setup.params);
      DecisionsArePlaceable(ds, cands, ledger.positions, setup.params, setup);
      return;
    }
    var scores := setup.selectionScores.value;
    var scored: seq<BuyCandidate> := [];
    for k := 0 to |cands|
      invariant scored == Scored(cands[..k], scores, setup.params)
    {
      assert cands[..k + 1][..k] == cands[..k];
      if cands[k].entity in scores && !BelowMinConfidence(cands[k], setup.params) {
        scored := scored + [cands[k].(confidence := scores[cands[k].entity], strength := 0.0)];
      }
    }
    assert cands[..|cands|] == cands;
    var ranked := DecideOnOpen(scored, ledger, SelectionParams(setup.params));
    first := ranked;
    var chosen: seq<BuyCandidate> := [];
    for k := 0 to |ranked|
      invariant chosen == Originals(ranked[..k], cands)
    {
      assert ranked[..k + 1][..k] == ranked[..k];
      var original := CandidateOf(cands, ranked[k].entity);
      if original.Some? { chosen := chosen + [original.value]; }
    }
    assert ranked[..|ranked|] == ranked;
    ds := DecideOnOpen(chosen, ledger, setup.params);
    OriginalsAreReliable(ranked, cands, setup);
    DecisionsArePlaceable(ds, chosen, ledger.positions, setup.params, setup);
  }

  function Marks(frames: map<string, Frame>, day: int): string -> real {
    t => MarkPrice(frames, t, day).GetOr(0.0)
  }

  lemma WorthOfNone(units: map<string, int>, marks: string -> real)
    requires units == map[]
    ensures Sum(Worth(units, marks)) == 0.0
  {
    SumZero(Worth(units, marks));
  }

  lemma WorthOfOneMore(done: map<string, int>, t: string, units: int, marks: string -> real)
    requires t !in done
    ensures Sum(Worth(done[t := units], marks)) == Sum(Worth(done, marks)) + Notional(units, marks(t))
  {
    hide Sum;
    SumUpdate(Worth(done, marks), t, Notional(units, marks(t)));
    assert Worth(done[t := units], marks) == Worth(done, marks)[t := Notional(units, marks(t))];
  }

  /** The marked value of all holdings; raises when a holding has no price. */
  method HoldingsWorth(broker: SimBroker) returns (r: Outcome<RunError>, value: real)
    ensures r.Pass? ==> value == HoldingsValue(broker.holdings, Marks(broker.frames, broker.day))
    ensures (forall t :: t in broker.holdings ==> MarkPrice(broker.frames, t, broker.day).Some?) ==> r.Pass?
  {
    hide Sum, Worth, Notional;
    r, value := Pass, 0.0;
    var marks := Marks(broker.frames, broker.day);
    var units := SharesByTicker(broker.holdings);
    var todo := units.Keys;
    ghost var done: map<string, int> := map[];
    WorthOfNone(done, marks);
    while todo != {}
      invariant todo <= units.Keys && done == map t | t in units && t !in todo :: units[t]
      invariant value == Sum(Worth(done, marks))
      decreases todo
    {
      var t :| t in todo;
      if MarkPrice(broker.frames, t, broker.day).None? { return Raise(MissingPrice), value; }
      assert t !in done;
      WorthOfOneMore(done, t, units[t], marks);
      value := value + Notional(units[t], marks(t));
      done := done[t := units[t]];
      todo := todo - {t};
    }
    assert done == units;
  }

  /** The books at the end of one day. */
  datatype DayEnd = DayEnd(ledger: LedgerState, broker: BrokerState)

  /** What every end of day satisfies: the balances, the slot rule, and the equity point that states its date, cash, marked
      holdings and open positions. */
  ghost predicate GoodEnd(e: DayEnd, point: EquityPoint, today: Today) {
    var Today(day, setup, frames, policy) := today;
    && Balanced(e.ledger, e.broker, setup.params.capital)
    && SlotsOf(e.ledger.positions, setup)
    && point.date == day && point.cash == e.broker.cash && point.holdingsValue == HoldingsValue(e.broker.holdings, Marks(frames, day))
    && point.openCount == |OpenIds(e.ledger.positions)| <= MaxSlots(setup.params)
    && (policy.commissionRate <= 1.0 ==> point.cash >= MinR(setup.params.capital, -CASH_TOLERANCE))
  }

  /** What a day decided, and the stages it went through after its exits. */
  datatype TradeTrace = TradeTrace(first: seq<BuyDecision>, ds: seq<BuyDecision>, swaps: SwapTrace, swappedByScore: set<Id>, afterSwaps: Stage,
                                   guard: GuardTrace, swappedByQueue: set<Id>, afterQueue: Stage, stages: seq<Stage>)

  /** After the exits of a day: decisions are made first, then come score swaps and queue, then the decisions are carried out. */
  ghost predicate TradedAsSpecified(t: TradeTrace, a: Stage, b: Stage, queued: map<string, int>, queue: map<string, int>, today: Today) {
    var Today(day, setup, frames, policy) := today;
    var cands := setup.outside.signals(day);
    && DecidedForDay(t.ds, t.first, cands, a.positions, setup)
    && SwapsAsSpecified(t.swaps, a, t.afterSwaps, t.swappedByScore, cands, t.ds, today)
    && (if setup.queueEnabled
        then GuardAsSpecified(t.guard, t.afterSwaps, t.afterQueue, Refreshed(queued, cands, day, setup.queueTtl), queue, t.swappedByQueue, cands, t.ds, today)
        else t.afterQueue == t.afterSwaps && t.swappedByQueue == {} && queue == queued)
    && DecisionChain(t.stages, t.ds, false, t.swappedByScore + t.swappedByQueue, today)
    && |t.stages| == |t.ds| + 1 && t.stages[0] == t.afterQueue && t.stages[|t.ds|] == b
  }

  /** The decisions of a day, and the swaps and buys they lead to. */
  method TradeDay(day: int, queued: map<string, int>, setup: Setup, ledger: EntityPositionLedger, broker: SimBroker, result: BacktestResult)
    returns (r: Outcome<RunError>, queue: map<string, int>, ghost t: TradeTrace)
    requires broker.day == day && InOrder(ledger, broker, result, setup.params.capital) && SlotsOf(ledger.positions, setup) && result.OnlyBuysRejected()
    modifies ledger, broker`cash, broker`holdings, broker`orders, broker`nextId, result`trades, result`rejected
    ensures result.OnlyBuysRejected()
    ensures r.Pass? ==>
      && InOrder(ledger, broker, result, setup.params.capital) && SlotsOf(ledger.positions, setup)
      && TradedAsSpecified(t, old(At(ledger, broker, result)), At(ledger, broker, result), queued, queue, With(day, setup, broker))
    ensures Sound(old(ledger.positions), day, setup, broker.frames, broker.policy) ==>
      r.Pass? && Sound(ledger.positions, day, setup, broker.frames, broker.policy)
  {
    hide Balanced, Accounted, SlotsKept, SlotsOf, StillFit, FitOpenPositions, SwapLeaves, DecidedForDay, DistinctDecisions, CompleteDay;
    hide SwapsAsSpecified, GuardAsSpecified, DecisionChain, ActiveTickers, Sound, AllPlaceable, Reliable, OwnersKept, BacktestResult.OnlyBuysRejected;
    ghost var initial, start := setup.params.capital, At(ledger, broker, result);
    queue := queued;
    SoundDay(ledger.positions, day, setup, broker.frames, broker.policy);
    var cands := setup.outside.signals(day);
    if setup.queueEnabled { queue := RefreshQueue(day, queue, cands, setup.queueTtl); }
    t := NoTrades(start);
    var ds; ghost var first;
    ds, first := DecideForDay(cands, ledger, setup);
    var swapped; ghost var swaps;
    r, swapped, swaps := ExecuteScoreSwaps(day, cands, ds, setup, ledger, broker, result, initial);
    if r.Raise? { return; }
    ghost var afterSwaps, byScore := At(ledger, broker, result), swapped;
    if Reliable(cands, setup) { StillPlaceable(ds, start.positions, ledger.positions, setup); }
    FitForToday(ds, start.positions, ledger.positions, swapped, setup);
    ghost var guard, byQueue := t.guard, {};
    if setup.queueEnabled {
      var alsoSwapped;
      r, queue, alsoSwapped, guard := ExecuteSwapGuardQueue(day, cands, ds, queue, setup, ledger, broker, result, initial);
      if r.Raise? { return; }
      if Reliable(cands, setup) { StillPlaceable(ds, afterSwaps.positions, ledger.positions, setup); }
      swapped, byQueue := swapped + alsoSwapped, alsoSwapped;
    }
    assert swapped == byScore + byQueue;
    ghost var afterQueue, stages := At(ledger, broker, result), [];
    r, stages := ExecuteDecisions(day, ds, swapped, setup, ledger, broker, result, initial);
    t := TradeTrace(first, ds, swaps, byScore, afterSwaps, guard, byQueue, afterQueue, stages);
  }

  /** A day: the positions its exits sold, the stages it went through, and the queue before and after it. */
  datatype DayTrace = DayTrace(queued: map<string, int>, start: Stage, gone: seq<Id>, afterExits: Stage, trades: TradeTrace, final: Stage, queue: map<string, int>)

  ghost function NoTrades(s: Stage): TradeTrace {
    TradeTrace([], [], SwapTrace([], [], []), {}, s, GuardTrace(QueueTrace([], [], [], []), s, map[], [], []), {}, s, [])
  }

  ghost function NoTrace(s: Stage, queue: map<string, int>): DayTrace { DayTrace(queue, s, [], s, NoTrades(s), s, queue) }

  /** A whole day, and the books it leaves. */
  ghost predicate DayAsSpecified(t: DayTrace, end: DayEnd, today: Today) {
    && ExitsAsSpecified(t.gone, t.start, t.afterExits, today)
    && TradedAsSpecified(t.trades, t.afterExits, t.final, t.queued, t.queue, today)
    && SameBooksAll(t.final.positions, end.ledger.positions) && end.broker.cash == t.final.cash
    && Accounted(end.broker, t.final.log.trades, today.policy.commissionRate)
  }

  /** One trading day: exits, decisions, swaps, buys, reconcile, equity. */
  method RunDay(day: int, queued: map<string, int>, setup: Setup, ledger: EntityPositionLedger, broker: SimBroker, result: BacktestResult)
    returns (r: Outcome<RunError>, queue: map<string, int>, ghost end: DayEnd, ghost t: DayTrace)
    requires InOrder(ledger, broker, result, setup.params.capital) && SlotsOf(ledger.positions, setup)
    requires result.OnlyBuysRejected() && result.reconcileFailures == []
    modifies ledger, broker`cash, broker`day, broker`holdings, broker`orders, broker`nextId
    modifies result`trades, result`rejected, result`equityCurve, result`reconcileFailures
    ensures result.OnlyBuysRejected() && result.reconcileFailures == []
    ensures r.Raise? ==> result.equityCurve == old(result.equityCurve)
    ensures Sound(old(ledger.positions), day, setup, broker.frames, broker.policy) ==> r.Pass? && Known(ledger.positions, setup)
    ensures r.Pass? ==>
      && InOrder(ledger, broker, result, setup.params.capital) && SlotsOf(ledger.positions, setup)
      && broker.day == day && end == DayEnd(ledger.State(), broker.State())
      && DayAsSpecified(t, end, With(day, setup, broker)) && t.start == old(At(ledger, broker, result)) && t.queued == queued && t.queue == queue
      && t.final.log == result.Logged()
      && |result.equityCurve| == |old(result.equityCurve)| + 1 && result.equityCurve[..|old(result.equityCurve)|] == old(result.equityCurve)
      && var point := result.equityCurve[|old(result.equityCurve)|];
         GoodEnd(end, point, With(day, setup, broker))
  {
    hide Balanced, Accounted, SlotsKept, SlotsOf, GoodEnd, HoldingsValue, Sound, Known, ExitsAsSpecified, TradedAsSpecified, SameBooksAll;
    ghost var initial, start := setup.params.capital, At(ledger, broker, result);
    end := DayEnd(ledger.State(), broker.State());
    queue := queued;
    broker.SetDate(day);
    ghost var gone, trades;
    r, gone := ProcessExits(day, setup, ledger, broker, result, initial);
    ghost var afterExits := At(ledger, broker, result);
    t := NoTrace(start, queue);
    if r.Raise? { return; }
    r, queue, trades := TradeDay(day, queue, setup, ledger, broker, result);
    if r.Raise? { return; }
    t := DayTrace(queued, start, gone, afterExits, trades, At(ledger, broker, result), queue);
    r, end := CloseDay(day, setup, ledger, broker, result);
  }

  lemma FitForToday(ds: seq<BuyDecision>, start: map<Id, Position>, now: map<Id, Position>, swapped: set<Id>, setup: Setup)
    requires FitOpenPositions(ds, start, setup.params) && SlotsOf(start, setup)
    requires exists tickers :: SwapLeaves(start, now, swapped, tickers)
    requires now == start || Full(start, setup)
    ensures DistinctDecisions(ds, setup.params)
    ensures !setup.queueEnabled ==> StillFit(ds, 0, now, swapped, setup)
  {
    var tickers :| SwapLeaves(start, now, swapped, tickers);
    if !setup.queueEnabled { FitAfterSwaps(ds, start, now, swapped, tickers, setup); }
  }

  lemma SameBooksSameSlots(before: map<Id, Position>, now: map<Id, Position>, setup: Setup)
    requires SlotsOf(before, setup) && SameBooksAll(before, now)
    ensures SlotsOf(now, setup)
  {
    assert OpenIds(now) == OpenIds(before);
  }

  lemma SameBooksStayKnown(before: map<Id, Position>, now: map<Id, Position>, day: int, setup: Setup, frames: map<string, Frame>, policy: FillPolicy)
    requires SameBooksAll(before, now) && Sound(before, day, setup, frames, policy)
    ensures Known(now, setup)
  {
    hide CompleteDay;
  }

  lemma SoundDay(positions: map<Id, Position>, day: int, setup: Setup, frames: map<string, Frame>, policy: FillPolicy)
    ensures Sound(positions, day, setup, frames, policy) ==> Reliable(setup.outside.signals(day), setup)
  {
  }

  /** What the broker holds belongs to positions, and their tickers are priced. */
  lemma HoldingsAreMarked(s: LedgerState, b: BrokerState, day: int, setup: Setup, frames: map<string, Frame>, policy: FillPolicy)
    requires Balanced(s, b, setup.params.capital) && Sound(s.positions, day, setup, frames, policy)
    ensures forall t :: t in b.holdings ==> MarkPrice(frames, t, day).Some?
  {
    hide CompleteDay, MarkPrice, MoneyBalances, Settled;
    forall t | t in b.holdings ensures MarkPrice(frames, t, day).Some? {
      assert OpenTotal(s.positions, t) == Held(b, t) as real > 0.0;
      var id := HolderOf(s.positions, t);
      EntityIsPriced(s.positions[id].entity, t, day, setup, frames, policy);
    }
  }

  lemma HolderOf(positions: map<Id, Position>, ticker: string) returns (id: Id)
    requires OpenTotal(positions, ticker) != 0.0
    ensures id in positions && positions[id].ticker == ticker
  {
    if forall i :: i in positions ==> positions[i].ticker != ticker {
      SumByEqual(positions, positions, OpenIn(ticker), (p: Position) => 0.0);
      NothingOpen(positions);
    }
    id :| id in positions && positions[id].ticker == ticker;
  }

  lemma NothingOpen(positions: map<Id, Position>)
    ensures SumBy(positions, (p: Position) => 0.0) == 0.0
  {
    var none := (p: Position) => 0.0;
    SumByDifference(positions, none, none, none);
  }

  /** Reconcile against the broker and record the equity of the day. */
  method CloseDay(day: int, setup: Setup, ledger: EntityPositionLedger, broker: SimBroker, result: BacktestResult)
    returns (r: Outcome<RunError>, ghost end: DayEnd)
    requires broker.day == day && InOrder(ledger, broker, result, setup.params.capital) && SlotsOf(ledger.positions, setup)
    requires result.OnlyBuysRejected() && result.reconcileFailures == []
    modifies ledger, result`equityCurve, result`reconcileFailures
    ensures result.OnlyBuysRejected() && result.reconcileFailures == []
    ensures r.Raise? ==> result.equityCurve == old(result.equityCurve)
    ensures Sound(old(ledger.positions), broker.day, setup, broker.frames, broker.policy) ==> r.Pass? && Known(ledger.positions, setup)
    ensures r.Pass? ==>
      && InOrder(ledger, broker, result, setup.params.capital) && SlotsOf(ledger.positions, setup)
      && end == DayEnd(ledger.State(), broker.State()) && SameBooksAll(old(ledger.positions), ledger.positions)
      && |result.equityCurve| == |old(result.equityCurve)| + 1 && result.equityCurve[..|old(result.equityCurve)|] == old(result.equityCurve)
      && var point := result.equityCurve[|old(result.equityCurve)|];
         GoodEnd(end, point, With(day, setup, broker))
  {
    hide Balanced, Accounted, SlotsKept, HoldingsValue, Sound, Known;
    ghost var before := ledger.State();
    ReconcileKeepsBalance(before, broker.State(), setup.params.capital);
    var ok := ledger.Reconcile(Holdings(broker.State()));
    SameBooksSameSlots(before.positions, ledger.positions, setup);
    result.reconcileFailures := result.reconcileFailures + (if ok then [] else [day]);
    end := DayEnd(ledger.State(), broker.State());
    if Sound(before.positions, broker.day, setup, broker.frames, broker.policy) {
      HoldingsAreMarked(before, broker.State(), broker.day, setup, broker.frames, broker.policy);
      SameBooksStayKnown(before.positions, ledger.positions, broker.day, setup, broker.frames, broker.policy);
    }
    var worth;
    r, worth := HoldingsWorth(broker);
    if r.Raise? { return; }
    var ids := ledger.OpenPositions();
    SlotCount(ledger.positions, setup);
    result.equityCurve := result.equityCurve + [EquityPoint(day, broker.cash, worth, |ids|)];
  }

  lemma SlotCount(positions: map<Id, Position>, setup: Setup)
    requires SlotsOf(positions, setup)
    ensures |OpenIds(positions)| <= MaxSlots(setup.params)
  {
  }

  /** What a position adds to the profit of an entity. */
  function ProfitOf(entity: string, marks: string -> real): Position -> real {
    (p: Position) => if p.entity == entity then TotalPnl(marks)(p) else 0.0
  }

  ghost predicate ProfitsOf(pnl: map<string, real>, positions: map<Id, Position>, marks: string -> real) {
    && (forall e :: Lookup(pnl, e) == SumBy(positions, ProfitOf(e, marks)))
    && (forall e :: e in pnl <==> exists id :: id in positions && positions[id].entity == e)
  }

  lemma NoProfits(marks: string -> real)
    ensures ProfitsOf(map[], map[], marks)
  {
    hide Sum, SumBy;
    var none: map<Id, Position> := map[];
    forall e ensures SumBy(none, ProfitOf(e, marks)) == 0.0 { SumByEmpty(none, ProfitOf(e, marks)); }
  }

  lemma OneMoreProfit(pnl: map<string, real>, done: map<Id, Position>, id: Id, p: Position, marks: string -> real)
    requires ProfitsOf(pnl, done, marks) && id !in done
    ensures ProfitsOf(pnl[p.entity := Lookup(pnl, p.entity) + TotalPnl(marks)(p)], done[id := p], marks)
  {
    hide Sum, SumBy, TotalPnl;
    var more := pnl[p.entity := Lookup(pnl, p.entity) + TotalPnl(marks)(p)];
    forall e ensures Lookup(more, e) == SumBy(done[id := p], ProfitOf(e, marks)) {
      SumByUpdate(done, id, p, ProfitOf(e, marks));
    }
    var now := done[id := p];
    forall e ensures e in more <==> exists i :: i in now && now[i].entity == e {
      if e == p.entity { assert now[id].entity == e; }
      if i :| i in done && done[i].entity == e { assert now[i].entity == e; }
    }
  }

  /** Add up per entity what its positions realized and what the open ones are worth above their cost. */
  method EntityProfits(positions: map<Id, Position>, marks: string -> real) returns (pnl: map<string, real>)
    ensures ProfitsOf(pnl, positions, marks)
    ensures Sum(pnl) == SumBy(positions, TotalPnl(marks))
  {
    hide Sum, SumBy, ProfitsOf;
    pnl := map[];
    ghost var done: map<Id, Position> := map[];
    SumZero(pnl);
    SumByEmpty(done, TotalPnl(marks));
    NoProfits(marks);
    var todo := positions.Keys;
    while todo != {}
      invariant todo <= positions.Keys && done == map id | id in positions && id !in todo :: positions[id]
      invariant Sum(pnl) == SumBy(done, TotalPnl(marks)) && ProfitsOf(pnl, done, marks)
      decreases todo
    {
      var id :| id in todo;
      var p := positions[id];
      assert id !in done;
      SumByUpdate(done, id, p, TotalPnl(marks));
      OneMoreProfit(pnl, done, id, p, marks);
      done := done[id := p];
      var gain := p.pnl;
      if p.openShares > 0 { gain := gain + Gain(p.openShares, marks(p.ticker), p.avg); }
      SumUpdate(pnl, p.entity, Lookup(pnl, p.entity) + gain);
      pnl := pnl[p.entity := Lookup(pnl, p.entity) + gain];
      todo := todo - {id};
    }
    assert done == positions;
  }

  lemma StandsAfter(course: seq<DayTrace>, ends: seq<DayEnd>, opening: Stage, t: DayTrace, end: DayEnd)
    requires |course| == |ends|
    ensures Standing(course + [t], ends + [end], opening) == Stage(end.ledger.positions, end.broker.cash, t.final.log)
    ensures Waiting(course + [t]) == t.queue
  {
  }

  /** The equity of the last point, or the capital when there is none. */
  function LastEquity(curve: seq<EquityPoint>, capital: real): real { if curve == [] then capital else curve[|curve| - 1].Equity() }

  /** The last equity point states what the broker has. */
  ghost predicate LastPointHolds(curve: seq<EquityPoint>, capital: real, b: BrokerState, marks: string -> real) {
    if curve == [] then b == BrokerState(capital, map[], map[])
    else curve[|curve| - 1].cash == b.cash && curve[|curve| - 1].holdingsValue == HoldingsValue(b.holdings, marks)
  }

  /** The final account: final equity is that of the last day, every entity has the profit of its positions, and together the
      profits are what the account gained before the commissions of the trades written down. */
  ghost predicate AccountClosed(pnl: map<string, real>, finalEquity: real, curve: seq<EquityPoint>, positions: map<Id, Position>,
                                marks: string -> real, capital: real, trades: seq<TradeRecord>, rate: real)
  {
    && finalEquity == LastEquity(curve, capital)
    && ProfitsOf(pnl, positions, marks)
    && Sum(pnl) == finalEquity - capital + CommissionsIn(trades, rate)
  }

  /** The final equity and the profit of every entity. */
  method FinalizeResult(result: BacktestResult, capital: real, ledger: EntityPositionLedger, broker: SimBroker)
    requires InOrder(ledger, broker, result, capital)
    requires LastPointHolds(result.equityCurve, capital, broker.State(), Marks(broker.frames, broker.day))
    modifies result`finalEquity, result`pnl
    ensures AccountClosed(result.pnl, result.finalEquity, result.equityCurve, ledger.positions, Marks(broker.frames, broker.day), capital,
                          result.trades, broker.policy.commissionRate)
    ensures result.finalEquity == broker.cash + HoldingsValue(broker.holdings, Marks(broker.frames, broker.day))
  {
    hide Sum, SumBy, HoldingsValue, CommissionsPaid, CommissionsIn, ProfitsOf;
    var last := |result.equityCurve| - 1;
    result.finalEquity := if last >= 0 then result.equityCurve[last].cash + result.equityCurve[last].holdingsValue else capital;
    ProfitIsGainBeforeCommissions(ledger.State(), broker.State(), capital, Marks(broker.frames, broker.day));
    if result.equityCurve == [] { NoHoldingsNoValue(Marks(broker.frames, broker.day)); }
    result.pnl := EntityProfits(ledger.positions, Marks(broker.frames, broker.day));
  }

  /** Where the run stands after the days traced: the books of the last day's end, and the queue it left. */
  ghost function Standing(course: seq<DayTrace>, ends: seq<DayEnd>, opening: Stage): Stage
    requires |course| == |ends|
  {
    if course == [] then opening
    else var last := |course| - 1; Stage(ends[last].ledger.positions, ends[last].broker.cash, course[last].final.log)
  }

  ghost function Waiting(course: seq<DayTrace>): map<string, int> { if course == [] then map[] else course[|course| - 1].queue }

  /** Day after day as specified, each from where the one before ended. */
  ghost predicate IsCourse(course: seq<DayTrace>, ends: seq<DayEnd>, days: seq<int>, opening: Stage, setup: Setup, frames: map<string,
                           Frame>, policy: FillPolicy) {
    && |course| == |ends| <= |days|
    && forall i :: 0 <= i < |course| ==>
         && DayAsSpecified(course[i], ends[i], Today(days[i], setup, frames, policy))
         && course[i].start == Standing(course[..i], ends[..i], opening) && course[i].queued == Waiting(course[..i])
  }

  lemma NothingRun(days: seq<int>, opening: Stage, setup: Setup, frames: map<string, Frame>, policy: FillPolicy)
    ensures IsCourse([], [], days, opening, setup, frames, policy) && Standing([], [], opening) == opening && Waiting([]) == map[]
  {
  }

  lemma OneMoreDay(course: seq<DayTrace>, ends: seq<DayEnd>, days: seq<int>, opening: Stage, t: DayTrace, end: DayEnd,
                   setup: Setup, frames: map<string, Frame>, policy: FillPolicy)
    requires IsCourse(course, ends, days, opening, setup, frames, policy) && |course| < |days|
    requires DayAsSpecified(t, end, Today(days[|course|], setup, frames, policy))
    requires t.start == Standing(course, ends, opening) && t.queued == Waiting(course)
    ensures IsCourse(course + [t], ends + [end], days, opening, setup, frames, policy)
  {
    hide DayAsSpecified, Standing, Waiting;
    forall i: nat | i <= |course| ensures (course + [t])[..i] == course[..i] && (ends + [end])[..i] == ends[..i] {
    }
    assert course[..|course|] == course && ends[..|ends|] == ends;
  }

  /** The broker at the end of the last day; before the first it holds only cash. */
  function LastBroker(ends: seq<DayEnd>, capital: real): BrokerState {
    if ends == [] then BrokerState(capital, map[], map[]) else ends[|ends| - 1].broker
  }

  function LastDay(days: seq<int>): int { if days == [] then 0 else days[|days| - 1] }

  ghost function Opening(capital: real): Stage { Stage(map[], capital, Log([], [])) }

  /** Every day traced ended well, at the stage, with the queue and the broker it left. */
  ghost predicate RunSoFar(course: seq<DayTrace>, ends: seq<DayEnd>, days: seq<int>, curve: seq<EquityPoint>, stage: Stage, queue: map<string, int>,
                           b: BrokerState, setup: Setup, frames: map<string, Frame>, policy: FillPolicy)
  {
    var capital := setup.params.capital;
    && |curve| == |ends| && IsCourse(course, ends, days, Opening(capital), setup, frames, policy)
    && Standing(course, ends, Opening(capital)) == stage && Waiting(course) == queue
    && (forall i :: 0 <= i < |ends| ==> GoodEnd(ends[i], curve[i], Today(days[i], setup, frames, policy)))
    && b == LastBroker(ends, capital) && LastPointHolds(curve, capital, b, Marks(frames, LastDay(days[..|ends|])))
  }

  lemma NothingYet(days: seq<int>, setup: Setup, frames: map<string, Frame>, policy: FillPolicy)
    ensures RunSoFar([], [], days, [], Opening(setup.params.capital), map[], BrokerState(setup.params.capital, map[], map[]), setup, frames, policy)
  {
    NothingRun(days, Opening(setup.params.capital), setup, frames, policy);
  }

  lemma OneMoreSoFar(course: seq<DayTrace>, ends: seq<DayEnd>, days: seq<int>, curve: seq<EquityPoint>, stage: Stage, queue: map<string, int>,
                     b: BrokerState, t: DayTrace, end: DayEnd, point: EquityPoint, setup: Setup, frames: map<string, Frame>, policy: FillPolicy)
    requires RunSoFar(course, ends, days, curve, stage, queue, b, setup, frames, policy) && |ends| < |days|
    requires var today := Today(days[|ends|], setup, frames, policy); DayAsSpecified(t, end, today) && GoodEnd(end, point, today)
    requires t.start == stage && t.queued == queue
    ensures RunSoFar(course + [t], ends + [end], days, curve + [point], Stage(end.ledger.positions, end.broker.cash, t.final.log), t.queue,
                     end.broker, setup, frames, policy)
  {
    hide DayAsSpecified, IsCourse, Standing, Waiting, Balanced, SlotsOf, HoldingsValue;
    CourseHasEnds(course, ends, days, Opening(setup.params.capital), setup, frames, policy);
    OneMoreDay(course, ends, days, Opening(setup.params.capital), t, end, setup, frames, policy);
    StandsAfter(course, ends, Opening(setup.params.capital), t, end);
    assert days[..|ends| + 1][|ends|] == days[|ends|];
  }

  lemma CourseHasEnds(course: seq<DayTrace>, ends: seq<DayEnd>, days: seq<int>, opening: Stage, setup: Setup, frames: map<string, Frame>, policy: FillPolicy)
    requires IsCourse(course, ends, days, opening, setup, frames, policy)
    ensures |course| == |ends| <= |days|
  {
    hide DayAsSpecified;
  }

  /** A whole backtest from an empty ledger and a broker holding only cash.

      At the end of every day ledger and broker agree exactly on every ticker's shares and the money balances, every
      reconcile passed, no sale was ever rejected, and the slot rule held; and when the run ends, every entity has the profit
      of its positions, and together that is the gain of the account before commissions. On complete inputs nothing ends it
      early. */
  method RunCentralBacktest(setup: Setup, frames: map<string, Frame>, policy: FillPolicy, days: seq<int>)
    returns (r: Outcome<RunError>, result: BacktestResult, broker: SimBroker, ghost ends: seq<DayEnd>, ghost course: seq<DayTrace>, ghost final: Stage,
             ghost queue: map<string, int>)
    ensures |ends| <= |days| && RunSoFar(course, ends, days, result.equityCurve, final, queue, LastBroker(ends, setup.params.capital), setup, frames, policy)
    ensures result.reconcileFailures == [] && result.OnlyBuysRejected()
    ensures r.Pass? ==>
      && |ends| == |days| && result.Logged() == final.log && broker.State() == LastBroker(ends, setup.params.capital)
      && AccountClosed(result.pnl, result.finalEquity, result.equityCurve, final.positions, Marks(frames, LastDay(days)), setup.params.capital,
                       result.trades, policy.commissionRate)
      && result.finalEquity == broker.cash + HoldingsValue(broker.holdings, Marks(frames, LastDay(days)))
    ensures setup.entities != map[] && (forall d :: d in days ==> CompleteDay(d, setup, frames, policy)) ==> r.Pass?
  {
    hide Balanced, Accounted, SlotsKept, GoodEnd, HoldingsValue, CompleteDay, Known, DayAsSpecified, SlotsOf, LastBroker, AccountClosed, InOrder, RunSoFar;
    var ledger := new EntityPositionLedger();
    broker := new SimBroker(frames, setup.params.capital, policy);
    result := new BacktestResult();
    ends, course, final, queue := [], [], Opening(setup.params.capital), map[];
    NothingYet(days, setup, frames, policy);
    r := Pass;
    StartsInOrder(ledger, broker, result, setup.params.capital);
    if setup.entities == map[] { return Raise(MissingEntity), result, broker, ends, course, final, queue; }
    EmptySlots(setup);
    NothingUnknown(setup);
    var guardQueue: map<string, int> := map[];
    for k := 0 to |days|
      invariant InOrder(ledger, broker, result, setup.params.capital) && SlotsOf(ledger.positions, setup)
      invariant broker.policy == policy && broker.frames == frames && r.Pass? && broker.day == LastDay(days[..k])
      invariant (forall d :: d in days ==> CompleteDay(d, setup, frames, policy)) ==> Known(ledger.positions, setup)
      invariant result.OnlyBuysRejected() && result.reconcileFailures == []
      invariant |ends| == k && final == At(ledger, broker, result) && queue == guardQueue && broker.State() == LastBroker(ends, setup.params.capital)
      invariant RunSoFar(course, ends, days, result.equityCurve, final, queue, broker.State(), setup, frames, policy)
    {
      assert days[k] in days && days[..k + 1][k] == days[k];
      ghost var curve, b := result.equityCurve, broker.State();
      ghost var end, t;
      r, guardQueue, end, t := RunDay(days[k], guardQueue, setup, ledger, broker, result);
      if r.Raise? { return; }
      CurveLength(course, ends, days, curve, final, queue, b, setup, frames, policy);
      assert result.equityCurve == curve + [result.equityCurve[k]];
      OneMoreSoFar(course, ends, days, curve, final, queue, b, t, end, result.equityCurve[k], setup, frames, policy);
      course, ends, final, queue := course + [t], ends + [end], At(ledger, broker, result), guardQueue;
      EndIsLast(ends, setup.params.capital);
    }
    assert days[..|days|] == days;
    LastPoint(course, ends, days, result.equityCurve, final, queue, broker.State(), setup, frames, policy);
    FinalizeResult(result, setup.params.capital, ledger, broker);
  }

  lemma CurveLength(course: seq<DayTrace>, ends: seq<DayEnd>, days: seq<int>, curve: seq<EquityPoint>, stage: Stage, queue: map<string, int>,
                    b: BrokerState, setup: Setup, frames: map<string, Frame>, policy: FillPolicy)
    requires RunSoFar(course, ends, days, curve, stage, queue, b, setup, frames, policy)
    ensures |curve| == |ends|
  {
  }

  lemma EndIsLast(ends: seq<DayEnd>, capital: real)
    requires ends != []
    ensures LastBroker(ends, capital) == ends[|ends| - 1].broker
  {
  }

  lemma LastPoint(course: seq<DayTrace>, ends: seq<DayEnd>, days: seq<int>, curve: seq<EquityPoint>, stage: Stage, queue: map<string, int>,
                  b: BrokerState, setup: Setup, frames: map<string, Frame>, policy: FillPolicy)
    requires RunSoFar(course, ends, days, curve, stage, queue, b, setup, frames, policy) && |ends| == |days|
    ensures LastPointHolds(curve, setup.params.capital, b, Marks(frames, LastDay(days)))
  {
    hide GoodEnd, IsCourse, HoldingsValue;
    assert days[..|ends|] == days;
  }

  lemma StartsInOrder(ledger: EntityPositionLedger, broker: SimBroker, result: BacktestResult, capital: real)
    requires ledger.State() == EmptyLedger && broker.Valid() && broker.State() == BrokerState(capital, map[], map[]) && result.trades == []
    ensures InOrder(ledger, broker, result, capital) && LastBroker([], capital) == broker.State()
  {
    hide Balanced, Accounted;
    StartsInBalance(capital, broker.policy.commissionRate);
  }

  lemma StartsInBalance(capital: real, rate: real)
    ensures var b := BrokerState(capital, map[], map[]); Balanced(EmptyLedger, b, capital) && Accounted(b, [], rate)
  {
    var none: map<Id, Position> := map[];
    forall t ensures OpenTotal(none, t) == 0.0 { SumByEmpty(none, OpenIn(t)); }
    SumByEmpty(none, CostOf());
    SumByEmpty(none, PnlOf());
    var noOrders: map<Id, Order> := map[];
    SumByEmpty(noOrders, CommissionOf());
  }

  lemma EmptySlots(setup: Setup)
    ensures SlotsOf(EmptyLedger.positions, setup)
  {
    assert OpenIds(EmptyLedger.positions) == {};
  }

  lemma NothingUnknown(setup: Setup)
    ensures Known(EmptyLedger.positions, setup)
  {
  }

  lemma NoHoldingsNoValue(marks: string -> real)
    ensures HoldingsValue(map[], marks) == 0.0
  {
    SumZero(Worth(SharesByTicker(map[]), marks));
  }
}
