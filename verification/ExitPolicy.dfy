/** The shared exit decision for long positions: a pure step over price bars. */
module ExitPolicy {
  import opened Common

  datatype Strategy = Fixed | Trailing | Hybrid | UnknownStrategy

  datatype Reason = StopLoss | BreakevenStop | SellOmen | TrailingExit | TakeProfit | TimeOut

  datatype Mode = Base | Stress | Live | ConservativeGapFill | ConservativeCore

  datatype MarketContext = MarketContext(marketScore: real, vix: real, holdingTradingDays: Option<int>)

  /** The rulebook attributes the policy reads; `None` is an attribute the rulebook lacks. */
  datatype Rulebook = Rulebook(
    stopLossAtr: Option<real>, stopLossAtrBear: Option<real>,
    takeProfitAtr: Option<real>, takeProfitAtrBull: Option<real>,
    trailingAtr: Option<real>, trailingAtrVolatile: Option<real>,
    maxHoldingDays: Option<int>, strategy: Option<Strategy>,
    breakevenEnabled: Option<bool>, breakevenTrigger: Option<real>, breakevenFloor: Option<real>,
    sellOmenEnabled: Option<bool>, sellOmenThreshold: Option<real>)

  datatype ExecutionConfig = ExecutionConfig(
    mode: Mode, baseSlippageBps: real, stressSlippageBps: real,
    useNextOpen: bool,
    trailingActivationBars: int, trailingActivationProfitPct: real,
    breakevenEnabled: Option<bool>, breakevenTrigger: Option<real>, breakevenFloor: Option<real>,
    sellOmenEnabled: Option<bool>, sellOmenScore: Option<real>, sellOmenThreshold: Option<real>,
    takeProfitEnabled: bool)

  datatype PositionState = PositionState(
    entryPrice: real, avgCost: real, shares: real, atr: real,
    stop: real, target: real, trailingStop: real, trailingDistance: real, highest: real,
    maxHoldingDays: int, strategy: Option<Strategy>, holdingDays: int, addBuyCount: int)

  datatype PriceSnapshot = PriceSnapshot(
    open: Option<real>, high: Option<real>, low: Option<real>, close: Option<real>,
    current: Option<real>, nextOpen: Option<real>)

  datatype ExitDecision = ExitDecision(
    exit: Option<(Reason, real)>, fillBase: real, fillStress: real, updated: PositionState)
  {
    predicate ShouldExit() { exit.Some? }
  }

  // ---- parameters ----------------------------------------------------------------

  /** ATR multipliers for stop, target and trailing distance in the given market. */
  function ResolveExitParams(rb: Rulebook, ctx: MarketContext): (real, real, real) {
    var baseSl := rb.stopLossAtr.GetOr(2.0);
    var baseTp := rb.takeProfitAtr.GetOr(3.0);
    var baseTrail := rb.trailingAtr.GetOr(1.5);
    (if ctx.marketScore < 40.0 then rb.stopLossAtrBear.GetOr(baseSl) else baseSl,
     if ctx.marketScore >= 70.0 then rb.takeProfitAtrBull.GetOr(baseTp) else baseTp,
     if ctx.vix > 25.0 then rb.trailingAtrVolatile.GetOr(baseTrail) else baseTrail)
  }

  function InitializePositionState(entry: real, shares: real, rb: Rulebook, atr: real, ctx: MarketContext): PositionState {
    var (sl, tp, trail) := ResolveExitParams(rb, ctx);
    PositionState(entry, entry, shares, atr,
                  entry - atr * sl, entry + atr * tp, entry - atr * trail, atr * trail, entry,
                  rb.maxHoldingDays.GetOr(20), Some(rb.strategy.GetOr(Hybrid)), 0, 0)
  }

  function UpdatePositionForAddBuy(p: PositionState, price: real, addShares: real, rb: Rulebook, atr: real, ctx: MarketContext): PositionState {
    var oldShares := MaxR(p.shares, 0.0);
    var added := MaxR(addShares, 0.0);
    var newShares := oldShares + added;
    var avg := if newShares <= 0.0 then price else (p.avgCost * oldShares + price * added) / newShares;
    var (sl, tp, trail) := ResolveExitParams(rb, ctx);
    p.(entryPrice := avg, avgCost := avg, shares := newShares, atr := atr,
       stop := avg - atr * sl, target := avg + atr * tp,
       trailingDistance := atr * trail,
       trailingStop := MaxR(p.trailingStop, avg - atr * trail),
       highest := MaxR(p.highest, price),
       addBuyCount := p.addBuyCount + 1)
  }

  /** High, low and reference price of a bar or of a live quote. */
  function SnapshotValues(price: PriceSnapshot): (real, real, real) {
    var ref := if price.current.Some? then price.current.value
               else if price.close.Some? then price.close.value
               else price.open.GetOr(0.0);
    var hasOhlc := price.high.Some? || price.low.Some?;
    if price.current.Some? && !hasOhlc then (ref, ref, ref)
    else (price.high.GetOr(ref), price.low.GetOr(ref), ref)
  }

  function Clamp01(x: real): real { MaxR(0.0, MinR(1.0, x)) }

  function ResolveBreakeven(rb: Rulebook, cfg: ExecutionConfig): (bool, real, real) {
    var trigger := cfg.breakevenTrigger.GetOr(rb.breakevenTrigger.GetOr(0.0));
    var floor := cfg.breakevenFloor.GetOr(rb.breakevenFloor.GetOr(0.0));
    var enabled := match cfg.breakevenEnabled
      case Some(b) => b
      case None => rb.breakevenEnabled.GetOr(trigger > 0.0);
    if enabled then (true, trigger, floor) else (false, 0.0, 0.0)
  }

  function ResolveSellOmen(rb: Rulebook, cfg: ExecutionConfig): (bool, Option<real>, real) {
    var score := if cfg.sellOmenScore.Some? then Some(Clamp01(cfg.sellOmenScore.value)) else None;
    var threshold := Clamp01(cfg.sellOmenThreshold.GetOr(rb.sellOmenThreshold.GetOr(1.0)));
    (cfg.sellOmenEnabled.GetOr(rb.sellOmenEnabled.GetOr(false)), score, threshold)
  }

  // ---- fills ---------------------------------------------------------------------

  predicate UsesGapFill(m: Mode) { m == ConservativeGapFill || m == ConservativeCore }

  function GapFillBasis(trigger: real, price: PriceSnapshot, reason: Reason): Option<real> {
    match reason
    case StopLoss | BreakevenStop | TrailingExit =>
      if price.open.Some? && price.open.value <= trigger then price.open else Some(trigger)
    case TakeProfit =>
      if price.open.Some? && price.open.value >= trigger then price.open else Some(trigger)
    case SellOmen | TimeOut => None
  }

  function FillBasis(trigger: real, price: PriceSnapshot, cfg: ExecutionConfig, reason: Reason): real {
    var gap := if UsesGapFill(cfg.mode) then GapFillBasis(trigger, price, reason) else None;
    if gap.Some? then gap.value
    else if cfg.useNextOpen && price.nextOpen.Some? then price.nextOpen.value
    else trigger
  }

  function AfterSlippage(basis: real, bps: real): real { basis * (1.0 - bps / 10000.0) }

  // ---- the decision --------------------------------------------------------------

  function ProfitPct(price: real, avgCost: real): real {
    if avgCost > 0.0 then (price - avgCost) / avgCost * 100.0 else 0.0
  }

  /** Which exit conditions hold on a bar, and the trailing level they are judged against. */
  datatype Signals = Signals(
    stopHit: bool, breakevenHit: bool, breakevenStop: real, omenHit: bool,
    trailingHit: bool, trailing: real, targetHit: bool, timeoutHit: bool, ref: real)

  function PropagationPeak(p: PositionState, price: PriceSnapshot): real {
    var (high, _, ref) := SnapshotValues(price);
    MaxR(MaxR(p.highest, high), ref)
  }

  function UpdatedTrailing(p: PositionState, price: PriceSnapshot): real {
    var peak := PropagationPeak(p, price);
    if peak > p.highest then MaxR(p.trailingStop, peak - p.trailingDistance) else p.trailingStop
  }

  function HoldingDays(p: PositionState, ctx: MarketContext): int { ctx.holdingTradingDays.GetOr(p.holdingDays) }

  /** The state carried to the next bar. */
  function Propagate(p: PositionState, price: PriceSnapshot, ctx: MarketContext): PositionState {
    p.(highest := PropagationPeak(p, price), trailingStop := UpdatedTrailing(p, price), holdingDays := HoldingDays(p, ctx))
  }

  function BarSignals(p: PositionState, price: PriceSnapshot, rb: Rulebook, ctx: MarketContext, cfg: ExecutionConfig): Signals {
    var (high, low, ref) := SnapshotValues(price);
    var core := cfg.mode == ConservativeCore;
    var activationPeak := if core then p.highest else PropagationPeak(p, price);
    var trailing := if core then p.trailingStop else UpdatedTrailing(p, price);
    var highestProfit := ProfitPct(activationPeak, p.avgCost);
    var days := HoldingDays(p, ctx);
    var trailingActive := days > cfg.trailingActivationBars && highestProfit >= cfg.trailingActivationProfitPct;
    var (beEnabled, beTrigger, beFloor) := ResolveBreakeven(rb, cfg);
    var beStop := p.avgCost * (1.0 + beFloor / 100.0);
    var (omenEnabled, omenScore, omenThreshold) := ResolveSellOmen(rb, cfg);
    Signals(low <= p.stop,
            beEnabled && highestProfit >= beTrigger && low <= beStop, beStop,
            omenEnabled && omenScore.Some? && omenScore.value >= omenThreshold,
            trailingActive && low <= trailing, trailing,
            cfg.takeProfitEnabled && high >= p.target,
            days >= p.maxHoldingDays, ref)
  }

  /** Same-bar collisions are resolved in a fixed order that depends on the strategy. */
  function ChooseExit(s: Signals, p: PositionState, strategy: Strategy): Option<(Reason, real)> {
    match strategy
    case Fixed =>
      if s.stopHit then Some((StopLoss, p.stop))
      else if s.breakevenHit then Some((BreakevenStop, s.breakevenStop))
      else if s.omenHit then Some((SellOmen, s.ref))
      else if s.targetHit then Some((TakeProfit, p.target))
      else if s.timeoutHit then Some((TimeOut, s.ref))
      else None
    case Trailing =>
      if s.breakevenHit then Some((BreakevenStop, s.breakevenStop))
      else if s.omenHit then Some((SellOmen, s.ref))
      else if s.trailingHit then Some((TrailingExit, s.trailing))
      else if s.timeoutHit then Some((TimeOut, s.ref))
      else None
    case Hybrid =>
      if s.stopHit then Some((StopLoss, p.stop))
      else if s.breakevenHit then Some((BreakevenStop, s.breakevenStop))
      else if s.omenHit then Some((SellOmen, s.ref))
      else if s.trailingHit then Some((TrailingExit, s.trailing))
      else if s.targetHit then Some((TakeProfit, p.target))
      else if s.timeoutHit then Some((TimeOut, s.ref))
      else None
    case UnknownStrategy => None
  }

  function StrategyOf(p: PositionState, rb: Rulebook): Strategy {
    p.strategy.GetOr(rb.strategy.GetOr(Hybrid))
  }

  function EvaluateExit(p: PositionState, price: PriceSnapshot, rb: Rulebook, ctx: MarketContext, cfg: ExecutionConfig): ExitDecision {
    var updated := Propagate(p, price, ctx);
    match ChooseExit(BarSignals(p, price, rb, ctx, cfg), p, StrategyOf(p, rb))
    case None => ExitDecision(None, 0.0, 0.0, updated)
    case Some((reason, trigger)) =>
      var basis := FillBasis(trigger, price, cfg, reason);
      ExitDecision(Some((reason, trigger)),
                   AfterSlippage(basis, cfg.baseSlippageBps), AfterSlippage(basis, cfg.stressSlippageBps), updated)
  }
}

/** Properties of the exit decision over single bars and over whole runs. */
module ExitRuns {
  import opened Common
  import opened ExitPolicy

  /** One bar of a run: the snapshot, the market on that bar, and the execution settings. */
  datatype Bar = Bar(price: PriceSnapshot, ctx: MarketContext, cfg: ExecutionConfig)

  function Decide(p: PositionState, bar: Bar, rb: Rulebook, mode: Mode): ExitDecision {
    EvaluateExit(p, bar.price, rb, bar.ctx, bar.cfg.(mode := mode))
  }

  /** How a run ended: the bar of the exit, if any, and the state carried so far. */
  datatype Run = Run(exitAt: Option<nat>, exit: Option<(Reason, real)>, state: PositionState)

  /** Feed the bars to the policy until it exits. */
  function Play(p: PositionState, bars: seq<Bar>, rb: Rulebook, mode: Mode): (run: Run)
    ensures run.exitAt.Some? ==> run.exitAt.value < |bars|
    decreases |bars|
  {
    if bars == [] then Run(None, None, p)
    else
      var d := Decide(p, bars[0], rb, mode);
      if d.ShouldExit() then Run(Some(0), d.exit, d.updated)
      else
        var rest := Play(d.updated, bars[1..], rb, mode);
        rest.(exitAt := if rest.exitAt.Some? then Some(rest.exitAt.value + 1) else None)
  }

  /** The state after all bars when no exit is acted on. */
  function Carry(p: PositionState, bars: seq<Bar>): PositionState
    decreases |bars|
  {
    if bars == [] then p else Carry(Propagate(p, bars[0].price, bars[0].ctx), bars[1..])
  }

  lemma ProfitMonotone(a: real, b: real, cost: real)
    requires a <= b
    ensures ProfitPct(a, cost) <= ProfitPct(b, cost)
  {
    if cost > 0.0 {
      assert (a - cost) / cost <= (b - cost) / cost;
    }
  }

  /** On one bar and from one state, whatever makes the conservative core exit makes every other mode exit. */
  lemma CoreExitImpliesExit(p: PositionState, bar: Bar, rb: Rulebook, mode: Mode)
    ensures Decide(p, bar, rb, ConservativeCore).ShouldExit() ==> Decide(p, bar, rb, mode).ShouldExit()
  {
    hide ProfitPct, ResolveBreakeven, ResolveSellOmen, FillBasis, AfterSlippage;
    SettingsIgnoreMode(rb, bar.cfg, mode);
    ProfitMonotone(p.highest, PropagationPeak(p, bar.price), p.avgCost);
  }

  lemma SettingsIgnoreMode(rb: Rulebook, cfg: ExecutionConfig, mode: Mode)
    ensures ResolveBreakeven(rb, cfg.(mode := mode)) == ResolveBreakeven(rb, cfg.(mode := ConservativeCore))
    ensures ResolveSellOmen(rb, cfg.(mode := mode)) == ResolveSellOmen(rb, cfg.(mode := ConservativeCore))
  {
  }

  /** Where a later exit at bar `at` of the remaining bars leaves the state, seen from the first bar. */
  lemma CarryFirst(p: PositionState, bars: seq<Bar>, at: Option<nat>)
    requires bars != []
    requires at.Some? ==> at.value < |bars| - 1
    ensures at.Some? ==> Carry(Propagate(p, bars[0].price, bars[0].ctx), bars[1..][..at.value + 1]) == Carry(p, bars[..at.value + 2])
  {
    if at.Some? {
      assert bars[..at.value + 2][1..] == bars[1..][..at.value + 1];
    }
  }

  /** Whatever the mode, a run carries the state the bars alone determine. */
  lemma {:induction false} PlayCarries(p: PositionState, bars: seq<Bar>, rb: Rulebook, mode: Mode)
    ensures var run := Play(p, bars, rb, mode);
            run.state == match run.exitAt
                         case None => Carry(p, bars)
                         case Some(k) => Carry(p, bars[..k + 1])
    decreases |bars|
  {
    if bars != [] {
      var next := Propagate(p, bars[0].price, bars[0].ctx);
      if Decide(p, bars[0], rb, mode).ShouldExit() {
        assert bars[..1][1..] == [];
      } else {
        PlayCarries(next, bars[1..], rb, mode);
        CarryFirst(p, bars, Play(next, bars[1..], rb, mode).exitAt);
      }
    }
  }

  /** Over any bars every other mode exits on the bar where the conservative core exits, or earlier. */
  lemma {:induction false} CoreExitsNoEarlier(p: PositionState, bars: seq<Bar>, rb: Rulebook, mode: Mode)
    ensures var core := Play(p, bars, rb, ConservativeCore).exitAt; var other := Play(p, bars, rb, mode).exitAt;
            core.Some? ==> other.Some? && other.value <= core.value
    decreases |bars|
  {
    if bars != [] {
      CoreExitImpliesExit(p, bars[0], rb, mode);
      CoreExitsNoEarlier(Propagate(p, bars[0].price, bars[0].ctx), bars[1..], rb, mode);
    }
  }

  /** The conservative core refines base: base exits no later, and as long as base has not exited
      neither has the core and both carry the same state; up to each exit the state carried is the same
      function of the bars alone. */
  lemma CoreRefinesBase(p: PositionState, bars: seq<Bar>, rb: Rulebook)
    ensures var core := Play(p, bars, rb, ConservativeCore); var base := Play(p, bars, rb, Base);
            && (core.exitAt.Some? ==> base.exitAt.Some? && base.exitAt.value <= core.exitAt.value)
            && (base.exitAt.None? ==> core.exitAt.None? && core.state == base.state)
            && (core.exitAt == base.exitAt ==> core.state == base.state)
            && (base.exitAt.Some? ==> base.state == Carry(p, bars[..base.exitAt.value + 1]))
            && (core.exitAt.Some? ==> core.state == Carry(p, bars[..core.exitAt.value + 1]))
  {
    CoreExitsNoEarlier(p, bars, rb, Base);
    PlayCarries(p, bars, rb, Base);
    PlayCarries(p, bars, rb, ConservativeCore);
  }

  /** A bar that sets no new high is judged alike by every pair of modes: same exit, same trigger. */
  lemma NoNewHighSameExit(p: PositionState, bar: Bar, rb: Rulebook, m1: Mode, m2: Mode)
    requires PropagationPeak(p, bar.price) == p.highest
    ensures Decide(p, bar, rb, m1).exit == Decide(p, bar, rb, m2).exit
  {
    assert UpdatedTrailing(p, bar.price) == p.trailingStop;
    assert BarSignals(p, bar.price, rb, bar.ctx, bar.cfg.(mode := m1)) == BarSignals(p, bar.price, rb, bar.ctx, bar.cfg.(mode := m2));
  }

  /** The modes part ways on one bar only through that bar's own new high, and then base leaves
      by its trailing stop or its breakeven stop. */
  lemma OnlyOwnHighSeparates(p: PositionState, bar: Bar, rb: Rulebook)
    requires Decide(p, bar, rb, Base).ShouldExit() != Decide(p, bar, rb, ConservativeCore).ShouldExit()
    ensures PropagationPeak(p, bar.price) > p.highest
    ensures Decide(p, bar, rb, Base).ShouldExit()
    ensures Decide(p, bar, rb, Base).exit.value.0 in {TrailingExit, BreakevenStop}
  {
    CoreExitImpliesExit(p, bar, rb, Base);
    if PropagationPeak(p, bar.price) == p.highest {
      NoNewHighSameExit(p, bar, rb, Base, ConservativeCore);
    }
  }

  /** Two bars that agree on everything but their high. */
  predicate SameButHigh(a: Bar, b: Bar) {
    && SnapshotValues(a.price).1 == SnapshotValues(b.price).1
    && SnapshotValues(a.price).2 == SnapshotValues(b.price).2
    && a.ctx == b.ctx && a.cfg == b.cfg
  }

  /** The conservative core does not look at the bar's own high: two bars that differ only there
      end in the same exit at the same trigger price, unless take-profit is on. */
  lemma CoreIgnoresOwnHigh(p: PositionState, a: Bar, b: Bar, rb: Rulebook)
    requires SameButHigh(a, b) && !a.cfg.takeProfitEnabled
    ensures Decide(p, a, rb, ConservativeCore).exit == Decide(p, b, rb, ConservativeCore).exit
  {
  }

  /** The base mode does look at it: a spike on the bar activates the trailing exit of that same bar. */
  lemma BaseSeesOwnHigh()
    ensures exists p: PositionState, a: Bar, b: Bar, rb: Rulebook ::
              SameButHigh(a, b) && !a.cfg.takeProfitEnabled &&
              Decide(p, a, rb, Base).ShouldExit() && !Decide(p, b, rb, Base).ShouldExit()
  {
    var rb := Rulebook(None, None, None, None, None, None, None, None, None, None, None, None, None);
    var cfg := ExecutionConfig(Base, 0.0, 0.0, true, 2, 0.0, Some(false), None, None, Some(false), None, None, false);
    var ctx := MarketContext(50.0, 18.0, Some(5));
    var p := PositionState(100.0, 100.0, 1.0, 2.0, 90.0, 120.0, 95.0, 5.0, 100.0, 20, Some(Hybrid), 0, 0);
    var a := Bar(PriceSnapshot(None, Some(110.0), Some(99.0), Some(100.0), None, None), ctx, cfg);
    var b := Bar(PriceSnapshot(None, Some(100.0), Some(99.0), Some(100.0), None, None), ctx, cfg);
    assert UpdatedTrailing(p, a.price) == 105.0;
    assert Decide(p, a, rb, Base).exit == Some((TrailingExit, 105.0));
    assert Decide(p, b, rb, Base).exit == None;
  }

  // ---- the trailing state --------------------------------------------------------

  /** The highest of the entry price and every high and reference price seen so far. */
  function PeakOf(entry: real, bars: seq<Bar>): real {
    if bars == [] then entry
    else
      var last := SnapshotValues(bars[|bars| - 1].price);
      MaxR(MaxR(PeakOf(entry, bars[..|bars| - 1]), last.0), last.2)
  }

  lemma {:induction false} CarryAppend(p: PositionState, bars: seq<Bar>, bar: Bar)
    ensures Carry(p, bars + [bar]) == Propagate(Carry(p, bars), bar.price, bar.ctx)
    decreases |bars|
  {
    if bars == [] {
      assert [bar][1..] == [];
    } else {
      CarryAppend(Propagate(p, bars[0].price, bars[0].ctx), bars[1..], bar);
      assert (bars + [bar])[1..] == bars[1..] + [bar];
    }
  }

  /** Without add-buys the trailing state has a closed form: the peak since entry, and the peak
      less the distance fixed at entry. */
  lemma {:induction false} TrailingClosedForm(entry: real, shares: real, rb: Rulebook, atr: real, ctx: MarketContext, bars: seq<Bar>)
    ensures var start := InitializePositionState(entry, shares, rb, atr, ctx);
            var s := Carry(start, bars);
            && s.highest == PeakOf(entry, bars)
            && s.trailingStop == PeakOf(entry, bars) - start.trailingDistance
            && s.trailingDistance == start.trailingDistance
            && s.stop == start.stop && s.target == start.target
  {
    if bars != [] {
      var front, last := bars[..|bars| - 1], bars[|bars| - 1];
      TrailingClosedForm(entry, shares, rb, atr, ctx, front);
      CarryAppend(InitializePositionState(entry, shares, rb, atr, ctx), front, last);
      assert bars == front + [last];
    }
  }

  /** `PeakOf` is the maximum: an upper bound of every price it ranges over, and one of them. */
  lemma {:induction false} PeakIsMaximum(entry: real, bars: seq<Bar>)
    ensures entry <= PeakOf(entry, bars)
    ensures forall i :: 0 <= i < |bars| ==> SnapshotValues(bars[i].price).0 <= PeakOf(entry, bars) && SnapshotValues(bars[i].price).2 <= PeakOf(entry, bars)
    ensures var peak := PeakOf(entry, bars);
      peak == entry || exists i :: 0 <= i < |bars| && peak in {SnapshotValues(bars[i].price).0, SnapshotValues(bars[i].price).2}
  {
    if bars != [] {
      var n := |bars| - 1;
      PeakIsMaximum(entry, bars[..n]);
      forall i | 0 <= i < n ensures bars[..n][i] == bars[i] {}
      if PeakOf(entry, bars) == PeakOf(entry, bars[..n]) && PeakOf(entry, bars) != entry {
        var i :| 0 <= i < n && (SnapshotValues(bars[..n][i].price).0 == PeakOf(entry, bars) || SnapshotValues(bars[..n][i].price).2 == PeakOf(entry, bars));
        assert bars[i] == bars[..n][i];
      } else {
        assert PeakOf(entry, bars) == entry || SnapshotValues(bars[n].price).0 == PeakOf(entry, bars) || SnapshotValues(bars[n].price).2 == PeakOf(entry, bars);
      }
    }
  }

  /** What can happen to an open position between entry and exit. */
  datatype Event = OnBar(bar: Bar) | OnAddBuy(price: real, shares: real, rb: Rulebook, atr: real, ctx: MarketContext)

  function Apply(p: PositionState, e: Event): PositionState {
    match e
    case OnBar(bar) => Propagate(p, bar.price, bar.ctx)
    case OnAddBuy(price, shares, rb, atr, ctx) => UpdatePositionForAddBuy(p, price, shares, rb, atr, ctx)
  }

  function ApplyAll(p: PositionState, events: seq<Event>): PositionState
    decreases |events|
  {
    if events == [] then p else ApplyAll(Apply(p, events[0]), events[1..])
  }

  /** Through any mix of bars and add-buys neither the trailing stop nor the peak ever falls. */
  lemma {:induction false} TrailingStopNeverFalls(p: PositionState, events: seq<Event>, k: nat)
    requires k <= |events|
    ensures ApplyAll(p, events[..k]).trailingStop <= ApplyAll(p, events).trailingStop
    ensures ApplyAll(p, events[..k]).highest <= ApplyAll(p, events).highest
    decreases |events|
  {
    if events == [] {
      assert events[..k] == [];
    } else if k == 0 {
      TrailingStopNeverFalls(Apply(p, events[0]), events[1..], 0);
    } else {
      TrailingStopNeverFalls(Apply(p, events[0]), events[1..], k - 1);
      assert events[..k][1..] == events[1..][..k - 1];
    }
  }

  /** With gap-aware fills a stop is never filled above its trigger and a target never below it, but for the slippage. */
  lemma GapFillIsConservative(p: PositionState, bar: Bar, rb: Rulebook, mode: Mode)
    requires UsesGapFill(mode)
    ensures var d := Decide(p, bar, rb, mode);
      d.exit.Some? ==>
        var (reason, trigger) := d.exit.value;
        exists basis ::
          && d.fillBase == AfterSlippage(basis, bar.cfg.baseSlippageBps) && d.fillStress == AfterSlippage(basis, bar.cfg.stressSlippageBps)
          && (reason in {StopLoss, BreakevenStop, TrailingExit} ==> basis <= trigger)
          && (reason == TakeProfit ==> basis >= trigger)
  {
    var d := Decide(p, bar, rb, mode);
    if d.exit.Some? {
      var (reason, trigger) := d.exit.value;
      var basis := FillBasis(trigger, bar.price, bar.cfg.(mode := mode), reason);
      assert d.fillBase == AfterSlippage(basis, bar.cfg.baseSlippageBps);
    }
  }

  // ---- collisions on one bar -----------------------------------------------------

  /** The exits a strategy listens to. */
  predicate Listens(strategy: Strategy, reason: Reason) {
    match strategy
    case Fixed => reason != TrailingExit
    case Trailing => reason !in {StopLoss, TakeProfit}
    case Hybrid => true
    case UnknownStrategy => false
  }

  predicate Hit(s: Signals, reason: Reason) {
    match reason
    case StopLoss => s.stopHit
    case BreakevenStop => s.breakevenHit
    case SellOmen => s.omenHit
    case TrailingExit => s.trailingHit
    case TakeProfit => s.targetHit
    case TimeOut => s.timeoutHit
  }

  /** The documented order: the worse exit for the holder first. */
  function Rank(reason: Reason): nat {
    match reason
    case StopLoss => 0
    case BreakevenStop => 1
    case SellOmen => 2
    case TrailingExit => 3
    case TakeProfit => 4
    case TimeOut => 5
  }

  /** Of all the exits that a bar triggers and the strategy listens to, the first in the documented order is taken;
      there is an exit exactly when there is one to take. */
  lemma FirstInOrderIsTaken(s: Signals, p: PositionState, strategy: Strategy, reason: Reason)
    ensures (ChooseExit(s, p, strategy).Some? && ChooseExit(s, p, strategy).value.0 == reason) <==>
      && Listens(strategy, reason) && Hit(s, reason)
      && forall other :: Listens(strategy, other) && Hit(s, other) ==> Rank(reason) <= Rank(other)
    ensures ChooseExit(s, p, strategy).None? <==> forall other :: !(Listens(strategy, other) && Hit(s, other))
  {
    var chosen := ChooseExit(s, p, strategy);
    assert chosen.Some? ==> Listens(strategy, chosen.value.0) && Hit(s, chosen.value.0);
    forall other | Listens(strategy, other) && Hit(s, other) ensures chosen.Some? && Rank(chosen.value.0) <= Rank(other) {}
    assert chosen.Some? && Rank(chosen.value.0) == Rank(reason) ==> chosen.value.0 == reason;
  }

  // ---- when each exit is taken ---------------------------------------------------

  /** The price a bar or quote is judged at: the current one, else the close, else the open. */
  function RefOf(price: PriceSnapshot): real {
    match (price.current, price.close, price.open)
    case (Some(x), _, _) => x
    case (None, Some(x), _) => x
    case (None, None, Some(x)) => x
    case (None, None, None) => 0.0
  }

  function HighOf(price: PriceSnapshot): real { if price.high.Some? then price.high.value else RefOf(price) }

  function LowOf(price: PriceSnapshot): real { if price.low.Some? then price.low.value else RefOf(price) }

  lemma SnapshotIs(price: PriceSnapshot)
    ensures SnapshotValues(price) == (HighOf(price), LowOf(price), RefOf(price))
  {
  }

  /** `peak` is at least `pct` percent above the cost. */
  predicate InProfit(peak: real, cost: real, pct: real) {
    if cost > 0.0 then peak >= cost * (1.0 + pct / 100.0) else pct <= 0.0
  }

  lemma ProfitTells(peak: real, cost: real, pct: real)
    ensures ProfitPct(peak, cost) >= pct <==> InProfit(peak, cost, pct)
  {
    if cost > 0.0 {
      var gain := (peak - cost) / cost;
      assert gain * cost == peak - cost;
      if gain * 100.0 >= pct {
        assert (gain - pct / 100.0) * cost >= 0.0;
      } else {
        assert (gain - pct / 100.0) * cost < 0.0;
      }
    }
  }

  /** `peak` is the highest price known when the bar is judged: the core does not look at the bar itself. */
  predicate IsPeak(peak: real, p: PositionState, price: PriceSnapshot, mode: Mode) {
    if mode == ConservativeCore then peak == p.highest
    else
      && peak >= p.highest && peak >= HighOf(price) && peak >= RefOf(price)
      && (peak == p.highest || peak == HighOf(price) || peak == RefOf(price))
  }

  /** `level` is the trailing stop the bar is judged against: it follows a new peak, and never falls. */
  predicate IsTrailingLevel(level: real, peak: real, p: PositionState, mode: Mode) {
    if mode == ConservativeCore || peak <= p.highest then level == p.trailingStop
    else
      && level >= p.trailingStop && level >= peak - p.trailingDistance
      && (level == p.trailingStop || level == peak - p.trailingDistance)
  }

  /** The settings of the run go before the rulebook's. */
  function First<T>(setting: Option<T>, rulebook: Option<T>, otherwise: T): T {
    if setting.Some? then setting.value else if rulebook.Some? then rulebook.value else otherwise
  }

  predicate BreakevenOn(rb: Rulebook, cfg: ExecutionConfig) {
    First(cfg.breakevenEnabled, rb.breakevenEnabled, First(cfg.breakevenTrigger, rb.breakevenTrigger, 0.0) > 0.0)
  }

  predicate OmenSpeaks(rb: Rulebook, cfg: ExecutionConfig) {
    && First(cfg.sellOmenEnabled, rb.sellOmenEnabled, false) && cfg.sellOmenScore.Some?
    && var score, threshold := cfg.sellOmenScore.value, First(cfg.sellOmenThreshold, rb.sellOmenThreshold, 1.0);
       score >= threshold || score >= 1.0 || threshold <= 0.0
  }

  function DaysHeld(p: PositionState, ctx: MarketContext): int {
    if ctx.holdingTradingDays.Some? then ctx.holdingTradingDays.value else p.holdingDays
  }

  /** The price the break-even stop stands at. */
  function BreakevenAt(p: PositionState, rb: Rulebook, cfg: ExecutionConfig): real {
    p.avgCost * (1.0 + First(cfg.breakevenFloor, rb.breakevenFloor, 0.0) / 100.0)
  }

  /** The bar triggers the exit, told from position, snapshot, market and settings. */
  ghost predicate Triggers(reason: Reason, p: PositionState, price: PriceSnapshot, rb: Rulebook, ctx: MarketContext, cfg: ExecutionConfig,
                           peak: real, level: real)
  {
    match reason
    case StopLoss => LowOf(price) <= p.stop
    case BreakevenStop =>
      && BreakevenOn(rb, cfg) && InProfit(peak, p.avgCost, First(cfg.breakevenTrigger, rb.breakevenTrigger, 0.0))
      && LowOf(price) <= BreakevenAt(p, rb, cfg)
    case SellOmen => OmenSpeaks(rb, cfg)
    case TrailingExit =>
      && DaysHeld(p, ctx) > cfg.trailingActivationBars && InProfit(peak, p.avgCost, cfg.trailingActivationProfitPct)
      && LowOf(price) <= level
    case TakeProfit => cfg.takeProfitEnabled && HighOf(price) >= p.target
    case TimeOut => DaysHeld(p, ctx) >= p.maxHoldingDays
  }

  /** The price an exit is triggered at. */
  function TriggerAt(reason: Reason, p: PositionState, price: PriceSnapshot, rb: Rulebook, cfg: ExecutionConfig, level: real): real {
    match reason
    case StopLoss => p.stop
    case BreakevenStop => BreakevenAt(p, rb, cfg)
    case TrailingExit => level
    case TakeProfit => p.target
    case SellOmen => RefOf(price)
    case TimeOut => RefOf(price)
  }

  lemma SettingsAre(rb: Rulebook, cfg: ExecutionConfig)
    ensures var (on, trigger, floor) := ResolveBreakeven(rb, cfg);
      && on == BreakevenOn(rb, cfg)
      && (on ==> trigger == First(cfg.breakevenTrigger, rb.breakevenTrigger, 0.0) && floor == First(cfg.breakevenFloor, rb.breakevenFloor, 0.0))
    ensures var (on, score, threshold) := ResolveSellOmen(rb, cfg);
      (on && score.Some? && score.value >= threshold) <==> OmenSpeaks(rb, cfg)
  {
  }

  lemma BreakevenStopAt(p: PositionState, rb: Rulebook, cfg: ExecutionConfig)
    ensures var (on, _, floor) := ResolveBreakeven(rb, cfg); on ==> p.avgCost * (1.0 + floor / 100.0) == BreakevenAt(p, rb, cfg)
  {
    hide ResolveBreakeven, First;
    SettingsAre(rb, cfg);
  }

  lemma PeakAndLevel(p: PositionState, price: PriceSnapshot, mode: Mode, peak: real, level: real)
    requires IsPeak(peak, p, price, mode) && IsTrailingLevel(level, peak, p, mode)
    ensures peak == if mode == ConservativeCore then p.highest else PropagationPeak(p, price)
    ensures level == if mode == ConservativeCore then p.trailingStop else UpdatedTrailing(p, price)
  {
    SnapshotIs(price);
  }

  lemma SignalsAre(p: PositionState, price: PriceSnapshot, rb: Rulebook, ctx: MarketContext, cfg: ExecutionConfig, peak: real, level: real, reason: Reason)
    requires IsPeak(peak, p, price, cfg.mode) && IsTrailingLevel(level, peak, p, cfg.mode)
    ensures var s := BarSignals(p, price, rb, ctx, cfg);
      && (Hit(s, reason) <==> Triggers(reason, p, price, rb, ctx, cfg, peak, level))
      && s.trailing == level && s.ref == RefOf(price) && (s.breakevenHit ==> s.breakevenStop == BreakevenAt(p, rb, cfg))
  {
    hide BarSignals, InProfit, OmenSpeaks, BreakevenOn, First, IsPeak, IsTrailingLevel, BreakevenAt, ProfitPct, RefOf, HighOf, LowOf;
    SignalFields(p, price, rb, ctx, cfg, peak, level);
    BreakevenSignal(p, price, rb, ctx, cfg, peak, level);
    ProfitTells(peak, p.avgCost, First(cfg.breakevenTrigger, rb.breakevenTrigger, 0.0));
    ProfitTells(peak, p.avgCost, cfg.trailingActivationProfitPct);
  }

  lemma SignalFields(p: PositionState, price: PriceSnapshot, rb: Rulebook, ctx: MarketContext, cfg: ExecutionConfig, peak: real, level: real)
    requires IsPeak(peak, p, price, cfg.mode) && IsTrailingLevel(level, peak, p, cfg.mode)
    ensures var s := BarSignals(p, price, rb, ctx, cfg);
      && (s.stopHit <==> LowOf(price) <= p.stop) && (s.omenHit <==> OmenSpeaks(rb, cfg))
      && (s.trailingHit <==> DaysHeld(p, ctx) > cfg.trailingActivationBars && ProfitPct(peak, p.avgCost) >= cfg.trailingActivationProfitPct && LowOf(price) <= level)
      && (s.targetHit <==> cfg.takeProfitEnabled && HighOf(price) >= p.target) && (s.timeoutHit <==> DaysHeld(p, ctx) >= p.maxHoldingDays)
      && s.trailing == level && s.ref == RefOf(price)
  {
    hide ResolveBreakeven, ResolveSellOmen, ProfitPct, OmenSpeaks, IsPeak, IsTrailingLevel, UpdatedTrailing, PropagationPeak;
    SnapshotIs(price);
    SettingsAre(rb, cfg);
    PeakAndLevel(p, price, cfg.mode, peak, level);
  }

  lemma BreakevenSignal(p: PositionState, price: PriceSnapshot, rb: Rulebook, ctx: MarketContext, cfg: ExecutionConfig, peak: real, level: real)
    requires IsPeak(peak, p, price, cfg.mode) && IsTrailingLevel(level, peak, p, cfg.mode)
    ensures var s := BarSignals(p, price, rb, ctx, cfg);
      && (s.breakevenHit <==>
            BreakevenOn(rb, cfg) && ProfitPct(peak, p.avgCost) >= First(cfg.breakevenTrigger, rb.breakevenTrigger, 0.0) && LowOf(price) <= BreakevenAt(p, rb, cfg))
      && (s.breakevenHit ==> s.breakevenStop == BreakevenAt(p, rb, cfg))
  {
    hide ResolveBreakeven, ResolveSellOmen, ProfitPct, BreakevenOn, First, IsPeak, IsTrailingLevel, UpdatedTrailing, PropagationPeak, BreakevenAt;
    SnapshotIs(price);
    SettingsAre(rb, cfg);
    BreakevenStopAt(p, rb, cfg);
    PeakAndLevel(p, price, cfg.mode, peak, level);
  }

  /** The strategy a position is judged by: its own, else the rulebook's, else hybrid. */
  function JudgedBy(p: PositionState, rb: Rulebook): Strategy { First(p.strategy, rb.strategy, Hybrid) }

  /** A bar ends a position for a reason, at a price, exactly when it triggers that exit, the strategy listens to it, and it
      triggers no exit that goes before. The peak and the trailing level are those the mode looks at. */
  lemma ExitExactlyWhen(p: PositionState, price: PriceSnapshot, rb: Rulebook, ctx: MarketContext, cfg: ExecutionConfig, peak: real, level: real,
                        reason: Reason, at: real)
    requires IsPeak(peak, p, price, cfg.mode) && IsTrailingLevel(level, peak, p, cfg.mode)
    ensures EvaluateExit(p, price, rb, ctx, cfg).exit == Some((reason, at)) <==>
      && Listens(JudgedBy(p, rb), reason) && Triggers(reason, p, price, rb, ctx, cfg, peak, level) && at == TriggerAt(reason, p, price, rb, cfg, level)
      && forall other :: Listens(JudgedBy(p, rb), other) && Triggers(other, p, price, rb, ctx, cfg, peak, level) ==> Rank(reason) <= Rank(other)
    ensures !EvaluateExit(p, price, rb, ctx, cfg).ShouldExit() <==>
      forall other :: !(Listens(JudgedBy(p, rb), other) && Triggers(other, p, price, rb, ctx, cfg, peak, level))
  {
    hide BarSignals, Triggers, Hit, Listens, FillBasis, AfterSlippage, Propagate, ChooseExit, Rank, TriggerAt, IsPeak, IsTrailingLevel;
    var s := BarSignals(p, price, rb, ctx, cfg);
    forall other ensures Hit(s, other) <==> Triggers(other, p, price, rb, ctx, cfg, peak, level) {
      SignalsAre(p, price, rb, ctx, cfg, peak, level, other);
    }
    FirstInOrderIsTaken(s, p, JudgedBy(p, rb), reason);
    SignalsAre(p, price, rb, ctx, cfg, peak, level, reason);
    ChosenAt(s, p, price, rb, cfg, level, JudgedBy(p, rb));
    assert StrategyOf(p, rb) == JudgedBy(p, rb);
  }

  lemma ChosenAt(s: Signals, p: PositionState, price: PriceSnapshot, rb: Rulebook, cfg: ExecutionConfig, level: real, strategy: Strategy)
    requires s.trailing == level && s.ref == RefOf(price) && (s.breakevenHit ==> s.breakevenStop == BreakevenAt(p, rb, cfg))
    ensures var chosen := ChooseExit(s, p, strategy);
      chosen.Some? ==> chosen.value.1 == TriggerAt(chosen.value.0, p, price, rb, cfg, level)
  {
    hide BreakevenAt, RefOf;
  }

  /** A peak and a trailing level always exist. */
  lemma Levels(p: PositionState, price: PriceSnapshot, mode: Mode) returns (peak: real, level: real)
    ensures IsPeak(peak, p, price, mode) && IsTrailingLevel(level, peak, p, mode)
  {
    SnapshotIs(price);
    peak := if mode == ConservativeCore then p.highest else PropagationPeak(p, price);
    level := if mode == ConservativeCore then p.trailingStop else UpdatedTrailing(p, price);
  }

  /** The stop loss goes before everything, in every mode: it ends a fixed or hybrid position exactly on the bar whose low is at
      or below the stop. */
  lemma StopEndsIt(p: PositionState, price: PriceSnapshot, rb: Rulebook, ctx: MarketContext, cfg: ExecutionConfig)
    requires JudgedBy(p, rb) in {Fixed, Hybrid}
    ensures EvaluateExit(p, price, rb, ctx, cfg).exit == Some((StopLoss, p.stop)) <==> LowOf(price) <= p.stop
    ensures !EvaluateExit(p, price, rb, ctx, cfg).ShouldExit() ==> LowOf(price) > p.stop
  {
    hide EvaluateExit, IsPeak, IsTrailingLevel;
    var peak, level := Levels(p, price, cfg.mode);
    ExitExactlyWhen(p, price, rb, ctx, cfg, peak, level, StopLoss, p.stop);
  }

  /** Over a run: before a fixed or hybrid position leaves, every bar kept its low above the stop; the run leaves no later than the
      first bar whose low is at or below it. */
  lemma {:induction false} SurvivorsStayAboveStop(p: PositionState, bars: seq<Bar>, rb: Rulebook, mode: Mode, i: nat)
    requires JudgedBy(p, rb) in {Fixed, Hybrid} && i < |bars|
    ensures var run := Play(p, bars, rb, mode);
      && (run.exitAt.None? || i < run.exitAt.value ==> LowOf(bars[i].price) > p.stop)
      && (LowOf(bars[i].price) <= p.stop ==> run.exitAt.Some? && run.exitAt.value <= i)
    decreases |bars|
  {
    hide EvaluateExit, LowOf;
    var bar := bars[0];
    StopEndsIt(p, bar.price, rb, bar.ctx, bar.cfg.(mode := mode));
    if !Decide(p, bar, rb, mode).ShouldExit() {
      KeepsGoing(p, bar, rb, mode);
      if i > 0 { SurvivorsStayAboveStop(Propagate(p, bar.price, bar.ctx), bars[1..], rb, mode, i - 1); }
    }
  }

  lemma KeepsGoing(p: PositionState, bar: Bar, rb: Rulebook, mode: Mode)
    ensures var d := Decide(p, bar, rb, mode); d.updated == Propagate(p, bar.price, bar.ctx)
    ensures var s := Propagate(p, bar.price, bar.ctx); s.stop == p.stop && s.strategy == p.strategy
  {
  }

  /** A run that ends by its stop ends on a bar whose low is at or below it, at the stop. */
  lemma {:induction false} StopRunsEndOnTouch(p: PositionState, bars: seq<Bar>, rb: Rulebook, mode: Mode)
    requires JudgedBy(p, rb) in {Fixed, Hybrid}
    ensures var run := Play(p, bars, rb, mode);
      run.exitAt.Some? ==> (run.exit == Some((StopLoss, p.stop)) <==> LowOf(bars[run.exitAt.value].price) <= p.stop)
    decreases |bars|
  {
    hide EvaluateExit, LowOf;
    if bars != [] {
      var bar := bars[0];
      StopEndsIt(p, bar.price, rb, bar.ctx, bar.cfg.(mode := mode));
      KeepsGoing(p, bar, rb, mode);
      if !Decide(p, bar, rb, mode).ShouldExit() { StopRunsEndOnTouch(Propagate(p, bar.price, bar.ctx), bars[1..], rb, mode); }
    }
  }

  // ---- fills and levels ----------------------------------------------------------

  /** The price an exit fills at before slippage: gap-aware modes take the open when it is already beyond the trigger; else the next
      open where it is used and known, else the trigger. */
  lemma FillsExactlyAt(p: PositionState, price: PriceSnapshot, rb: Rulebook, ctx: MarketContext, cfg: ExecutionConfig)
    ensures !EvaluateExit(p, price, rb, ctx, cfg).ShouldExit() ==>
      EvaluateExit(p, price, rb, ctx, cfg).fillBase == 0.0 == EvaluateExit(p, price, rb, ctx, cfg).fillStress
    ensures var d := EvaluateExit(p, price, rb, ctx, cfg);
      d.exit.Some? ==>
        var (reason, at) := d.exit.value;
        var gapAware := cfg.mode in {ConservativeGapFill, ConservativeCore} && reason !in {SellOmen, TimeOut};
        var gapped := gapAware && price.open.Some? && (if reason == TakeProfit then price.open.value >= at else price.open.value <= at);
        var basis := if gapped then price.open.value
                     else if !gapAware && cfg.useNextOpen && price.nextOpen.Some? then price.nextOpen.value else at;
        && 10000.0 * d.fillBase == basis * (10000.0 - cfg.baseSlippageBps)
        && 10000.0 * d.fillStress == basis * (10000.0 - cfg.stressSlippageBps)
  {
    hide BarSignals, ChooseExit, Propagate;
    var d := EvaluateExit(p, price, rb, ctx, cfg);
    if d.exit.Some? {
      var (reason, at) := d.exit.value;
      Slipped(FillBasis(at, price, cfg, reason), cfg.baseSlippageBps);
      Slipped(FillBasis(at, price, cfg, reason), cfg.stressSlippageBps);
    }
  }

  lemma Slipped(basis: real, bps: real)
    ensures 10000.0 * AfterSlippage(basis, bps) == basis * (10000.0 - bps)
  {
  }

  /** The multiple of the ATR a level stands off by: a market regime may replace the rulebook's own, and it has a default. */
  function Multiple(inRegime: bool, special: Option<real>, own: Option<real>, otherwise: real): real {
    if inRegime && special.Some? then special.value else if own.Some? then own.value else otherwise
  }

  /** A new position's levels stand off its entry by multiples of the ATR: the stop's in a weak market, the target's in a strong one
      and the trailing distance in a nervous one may be special. */
  lemma EntryLevels(entry: real, shares: real, rb: Rulebook, atr: real, ctx: MarketContext)
    ensures var s := InitializePositionState(entry, shares, rb, atr, ctx);
      && entry - s.stop == atr * Multiple(ctx.marketScore < 40.0, rb.stopLossAtrBear, rb.stopLossAtr, 2.0)
      && s.target - entry == atr * Multiple(ctx.marketScore >= 70.0, rb.takeProfitAtrBull, rb.takeProfitAtr, 3.0)
      && s.trailingDistance == atr * Multiple(ctx.vix > 25.0, rb.trailingAtrVolatile, rb.trailingAtr, 1.5)
      && s.trailingStop == entry - s.trailingDistance && s.highest == s.avgCost == s.entryPrice == entry && s.shares == shares
      && s.maxHoldingDays == First(None, rb.maxHoldingDays, 20) && s.strategy == Some(First(None, rb.strategy, Hybrid))
      && s.holdingDays == s.addBuyCount == 0
  {
  }

  /** An add-buy pools shares and money, resets stop, target and distance around the new average as a new entry there would, and
      neither trailing stop nor peak falls. */
  lemma AddBuyPools(p: PositionState, price: real, addShares: real, rb: Rulebook, atr: real, ctx: MarketContext)
    requires p.shares >= 0.0 && addShares >= 0.0 && p.shares + addShares > 0.0
    ensures var s := UpdatePositionForAddBuy(p, price, addShares, rb, atr, ctx);
      && s.shares == p.shares + addShares && s.avgCost * s.shares == p.avgCost * p.shares + price * addShares
      && var anew := InitializePositionState(s.avgCost, s.shares, rb, atr, ctx);
         && s.stop == anew.stop && s.target == anew.target && s.trailingDistance == anew.trailingDistance
         && s.trailingStop == MaxR(p.trailingStop, anew.trailingStop) && s.highest == MaxR(p.highest, price)
         && s.addBuyCount == p.addBuyCount + 1 && s.maxHoldingDays == p.maxHoldingDays && s.strategy == p.strategy
  {
    var shares, money := p.shares + addShares, p.avgCost * p.shares + price * addShares;
    assert money / shares * shares == money;
  }
}
