/** The queue of newcomers that found no slot. */
module SwapQueue {
  import opened Common
  import opened Orders
  import opened LedgerSpec
  import opened EntityLedger
  import opened SimBrokers
  import opened Books
  import opened Trading
  import opened Allocation
  import opened Slots
  import opened RunSpec
  import opened Steps
  import opened Swaps
  import opened SwapFacts

  /** The queue without the entities that waited too long or gave no signal today. */
  ghost function Refreshed(queue: map<string, int>, cands: seq<BuyCandidate>, day: int, ttl: int): map<string, int> {
    map e | e in queue && Max(0, day - queue[e]) <= Max(ttl, 1) && CandidateOf(cands, e).Some? :: queue[e]
  }

  /** Drop queued entities that waited too long or gave no signal today. */
  method RefreshQueue(day: int, queue: map<string, int>, cands: seq<BuyCandidate>, ttl: int) returns (kept: map<string, int>)
    ensures kept == Refreshed(queue, cands, day, ttl)
  {
    kept := queue;
    var todo := queue.Keys;
    while todo != {}
      invariant todo <= queue.Keys
      invariant kept == map e | e in queue && (e in todo || (Max(0, day - queue[e]) <= Max(ttl, 1) && CandidateOf(cands, e).Some?)) :: queue[e]
      decreases todo
    {
      var e :| e in todo;
      if Max(0, day - queue[e]) > Max(ttl, 1) || CandidateOf(cands, e).None? {
        kept := kept - {e};
      }
      todo := todo - {e};
    }
  }

  function Enqueue(queue: map<string, int>, c: BuyCandidate, day: int): map<string, int> {
    if c.entity == "" || c.ticker == "" || c.entity in queue then queue else queue[c.entity := day]
  }

  /** Whether a decision made earlier in the day may still be carried out. */
  predicate StillAllowed(d: BuyDecision, positions: map<Id, Position>, params: Params) {
    if d.purpose == "add_buy" then d.target.Some? && d.target.value in OpenIds(positions)
    else
      && (forall id :: id in positions && Active(positions[id]) ==> positions[id].entity != d.entity)
      && d.ticker != "" && d.ticker !in ActiveTickers(positions)
      && |ActiveTickers(positions)| < MaxSlots(params)
  }

  /** A decision aims at an existing position exactly when it is an add-buy. */
  predicate Aimed(d: BuyDecision) {
    if d.purpose == "add_buy" then d.target.Some? else d.target.None?
  }

  /** A decision that fits the moment keeps the slot rule. */
  lemma DecisionKeepsSlots(before: map<Id, Position>, now: map<Id, Position>, d: BuyDecision, setup: Setup)
    requires SlotsOf(before, setup) && Aimed(d) && BuyOutcome(before, now, d.entity, d.ticker, d.target)
    requires d.purpose == "add_buy" ==> d.target.value in OpenIds(before)
    requires d.purpose != "add_buy" ==> |OpenIds(before)| < MaxSlots(setup.params) && (OneTickerEach(setup) ==> d.ticker !in ActiveTickers(before))
    ensures SlotsOf(now, setup)
    ensures SwapLeaves(before, now, {}, if d.purpose == "add_buy" then {} else {d.ticker})
    ensures |OpenIds(now)| <= |OpenIds(before)| + if d.purpose == "add_buy" then 0 else 1
  {
    if d.purpose != "add_buy" {
      EntryLeaves(before, now, d.entity, d.ticker, setup);
    } else if now != before {
      var pid :| BoughtInto(before, now, d.entity, d.ticker, d.target, pid);
      TopUpKeepsOpen(before, now, pid);
      CloseKeepsSlots(before, now, {}, MaxSlots(setup.params), OneTickerEach(setup));
    }
  }

  lemma AllowedFits(d: BuyDecision, positions: map<Id, Position>, setup: Setup)
    requires SlotsOf(positions, setup) && OneTickerEach(setup) && StillAllowed(d, positions, setup.params) && d.purpose != "add_buy"
    ensures |OpenIds(positions)| < MaxSlots(setup.params) && d.ticker !in ActiveTickers(positions)
  {
    TickersAtMostPositions(positions);
  }

  /** An add-buy may still be carried out exactly when its position is open, and an entry when a slot is free and neither its entity
      nor its ticker is held. */
  lemma AllowedExactlyWhen(d: BuyDecision, positions: map<Id, Position>, params: Params, tickers: set<string>)
    requires forall t :: t in tickers <==> exists id :: id in positions && positions[id].openShares > 1 && positions[id].ticker == t
    ensures d.purpose == "add_buy" ==>
      (StillAllowed(d, positions, params) <==> d.target.Some? && d.target.value in positions && positions[d.target.value].openShares > 1)
    ensures d.purpose != "add_buy" ==>
      (StillAllowed(d, positions, params) <==>
         d.ticker != "" && |tickers| < params.maxPositions
         && !exists id :: id in positions && positions[id].openShares > 1 && (positions[id].entity == d.entity || positions[id].ticker == d.ticker))
  {
    assert ActiveTickers(positions) == tickers;
  }

  /** A newcomer is queued from today on, unless it already waits; others keep their day. */
  lemma EnqueueExactly(queue: map<string, int>, c: BuyCandidate, day: int, e: string)
    ensures var after := Enqueue(queue, c, day);
      && (e in after <==> e in queue || (e == c.entity && c.entity != "" && c.ticker != ""))
      && (e in after ==> after[e] == if e in queue then queue[e] else day)
  {
  }

  /** A queued entity stays for as many days as asked for, and one at least, while it has a signal. */
  lemma RefreshedExactly(queue: map<string, int>, cands: seq<BuyCandidate>, day: int, ttl: int, e: string)
    ensures var after := Refreshed(queue, cands, day, ttl);
      && (e in after <==> e in queue && (day - queue[e] <= 1 || day - queue[e] <= ttl) && exists c :: c in cands && c.entity == e)
      && (e in after ==> after[e] == queue[e])
  {
    LastOfEntity(cands, e);
  }

  /** Carry out a decision if it is still allowed. */
  method BuyIfAllowed(day: int, d: BuyDecision, setup: Setup, ledger: EntityPositionLedger, broker: SimBroker, result: BacktestResult, ghost initial: real)
    returns (r: Outcome<RunError>, bought: bool)
    requires broker.day == day && InOrder(ledger, broker, result, initial) && SlotsOf(ledger.positions, setup) && result.OnlyBuysRejected()
    requires OneTickerEach(setup) && Aimed(d)
    modifies ledger, broker`cash, broker`holdings, broker`orders, broker`nextId, result`trades, result`rejected
    ensures result.OnlyBuysRejected()
    ensures r.Pass? ==>
      && InOrder(ledger, broker, result, initial) && SlotsOf(ledger.positions, setup)
      && bought == (StillAllowed(d, old(ledger.positions), setup.params) && d.entity in setup.entities)
      && if bought then CarriedOut(d, old(At(ledger, broker, result)), At(ledger, broker, result), With(day, setup, broker))
         else At(ledger, broker, result) == old(At(ledger, broker, result))
    ensures r.Pass? ==> OwnersKept(old(ledger.positions), ledger.positions)
    ensures Sound(old(ledger.positions), day, setup, broker.frames, broker.policy) && Placeable(d, old(ledger.positions), setup) ==>
      r.Pass? && Sound(ledger.positions, day, setup, broker.frames, broker.policy)
  {
    hide Balanced, Accounted, SlotsKept, BuyOutcome, CarriedOut, Sound, OwnersKept, Placeable;
    SameOwners(ledger.positions);
    r, bought := Pass, false;
    if !StillAllowed(d, ledger.positions, setup.params) || d.entity !in setup.entities { return; }
    ghost var before := ledger.positions;
    r := ExecuteBuy(day, d, setup, ledger, broker, result, initial);
    if r.Raise? { return; }
    bought := true;
    if d.purpose != "add_buy" { AllowedFits(d, before, setup); }
    DecisionKeepsSlots(before, ledger.positions, d, setup);
  }

  /** Whether a decision is carried out when its turn comes. One that comes from the queue must still be allowed, and one of the
      day unless the queue is off; a decision of the day must not aim at a position that was swapped away. */
  predicate Due(d: BuyDecision, positions: map<Id, Position>, fromQueue: bool, swapped: set<Id>, setup: Setup) {
    if fromQueue then StillAllowed(d, positions, setup.params) && d.entity in setup.entities
    else !(d.target.Some? && d.target.value in swapped) && (setup.queueEnabled ==> StillAllowed(d, positions, setup.params))
  }

  /** The decisions in turn, from each stage to the next: carried out if due, else passed over. */
  ghost predicate DecisionChain(stages: seq<Stage>, ds: seq<BuyDecision>, fromQueue: bool, swapped: set<Id>, today: Today) {
    && 0 < |stages| <= |ds| + 1
    && forall k :: 0 <= k < |stages| - 1 ==> TurnTaken(ds[k], stages[k], stages[k + 1], fromQueue, swapped, today)
  }

  ghost predicate TurnTaken(d: BuyDecision, a: Stage, b: Stage, fromQueue: bool, swapped: set<Id>, today: Today) {
    if Due(d, a.positions, fromQueue, swapped, today.setup) then CarriedOut(d, a, b, today) else b == a
  }

  lemma OneMoreTurn(stages: seq<Stage>, ds: seq<BuyDecision>, b: Stage, fromQueue: bool, swapped: set<Id>, today: Today)
    requires DecisionChain(stages, ds, fromQueue, swapped, today) && |stages| <= |ds|
    requires var n := |stages| - 1; TurnTaken(ds[n], stages[n], b, fromQueue, swapped, today)
    ensures DecisionChain(stages + [b], ds, fromQueue, swapped, today)
  {
    hide TurnTaken;
  }

  /** The candidates of today that are queued, in some order. */
  ghost predicate AreWaiting(waiting: seq<BuyCandidate>, cands: seq<BuyCandidate>, entities: set<string>) {
    && (forall c :: c in waiting ==> c.entity in entities && CandidateOf(cands, c.entity) == Some(c))
    && (forall e :: e in entities && CandidateOf(cands, e).Some? ==> CandidateOf(cands, e).value in waiting)
  }

  lemma NothingWaits(cands: seq<BuyCandidate>)
    ensures AreWaiting([], cands, {})
  {
  }

  method WaitingCandidates(cands: seq<BuyCandidate>, entities: set<string>) returns (waiting: seq<BuyCandidate>)
    ensures AreWaiting(waiting, cands, entities)
  {
    hide CandidateOf;
    waiting := [];
    var todo := entities;
    while todo != {}
      invariant todo <= entities && AreWaiting(waiting, cands, entities - todo)
      decreases todo
    {
      var e :| e in todo;
      var c := CandidateOf(cands, e);
      if c.Some? { waiting := waiting + [c.value]; }
      todo := todo - {e};
    }
    assert entities - todo == entities;
  }

  /** What the queued entries of a day were decided on, and the stages they went through; `done` are those carried out. */
  datatype QueueTrace = QueueTrace(waiting: seq<BuyCandidate>, ds: seq<BuyDecision>, stages: seq<Stage>, done: seq<nat>)

  /** Queued candidates are decided on only while slots are free, and exactly what is carried out leaves the queue. */
  ghost predicate QueuedAsSpecified(t: QueueTrace, a: Stage, b: Stage, queued: map<string, int>, queue: map<string, int>,
                                    cands: seq<BuyCandidate>, today: Today) {
    var params := today.setup.params;
    if |ActiveTickers(a.positions)| < MaxSlots(params) then
      && AreWaiting(t.waiting, cands, queued.Keys)
      && (t.waiting == [] ==> b == a && queue == queued)
      && (t.waiting != [] ==>
            && WellDecided(t.ds, t.waiting, a.positions, params)
            && DecisionChain(t.stages, t.ds, true, {}, today) && |t.stages| == |t.ds| + 1 && t.stages[0] == a && t.stages[|t.ds|] == b
            && (forall k :: 0 <= k < |t.ds| ==> (k in t.done <==> Due(t.ds[k], t.stages[k].positions, true, {}, today.setup)))
            && queue == queued - EntitiesDone(t.ds, t.done))
    else
      b == a && queue == queued
  }

  /** Buy queued candidates while slots are free. What is carried out leaves the queue, and nothing else does. */
  method ExecuteQueuedEntries(day: int, cands: seq<BuyCandidate>, queued: map<string, int>, setup: Setup, ledger: EntityPositionLedger,
                              broker: SimBroker, result: BacktestResult, ghost initial: real)
    returns (r: Outcome<RunError>, queue: map<string, int>, ghost t: QueueTrace)
    requires broker.day == day && InOrder(ledger, broker, result, initial) && SlotsOf(ledger.positions, setup) && result.OnlyBuysRejected() && OneTickerEach(setup)
    modifies ledger, broker`cash, broker`holdings, broker`orders, broker`nextId, result`trades, result`rejected
    ensures result.OnlyBuysRejected()
    ensures r.Pass? ==>
      var start := old(ledger.positions);
      && InOrder(ledger, broker, result, initial) && SlotsOf(ledger.positions, setup)
      && queue.Keys <= queued.Keys && (forall e :: e in queue ==> queue[e] == queued[e])
      && QueuedAsSpecified(t, old(At(ledger, broker, result)), At(ledger, broker, result), queued, queue, cands, With(day, setup, broker))
      && OwnersKept(start, ledger.positions)
    ensures Sound(old(ledger.positions), day, setup, broker.frames, broker.policy) && Reliable(cands, setup) ==>
      r.Pass? && Sound(ledger.positions, day, setup, broker.frames, broker.policy)
  {
    hide Balanced, Accounted, SlotsKept, ActiveTickers, StillAllowed, CarriedOut, AreWaiting, WellDecided, EntitiesDone, FitOpenPositions, Sound, OwnersKept;
    hide Reliable, AllPlaceable, DecisionChain, Due;
    r, queue, t := Pass, queued, QueueTrace([], [], [], []);
    ghost var today := With(day, setup, broker);
    SameOwners(ledger.positions);
    NothingWaits(cands);
    assert queue == map[] ==> queue.Keys == {};
    if queue == map[] || MaxSlots(setup.params) <= 0 || |ActiveTickers(ledger.positions)| >= MaxSlots(setup.params) { return; }
    var ready := WaitingCandidates(cands, queue.Keys);
    t := QueueTrace(ready, [], [], []);
    if ready == [] { return; }
    var ds := DecideOnOpen(ready, ledger, setup.params);
    NoneConverted(ds, queued);
    WaitingAreReliable(ready, cands, queue.Keys, setup);
    DecisionsArePlaceable(ds, ready, ledger.positions, setup.params, setup);
    ghost var stages, done: seq<nat> := [At(ledger, broker, result)], [];
    NoTurnYet(stages[0], ds, true, {}, today);
    for k := 0 to |ds|
      invariant InOrder(ledger, broker, result, initial) && SlotsOf(ledger.positions, setup) && result.OnlyBuysRejected()
      invariant |stages| == k + 1 && stages[0] == old(At(ledger, broker, result)) && stages[k] == At(ledger, broker, result)
      invariant DecisionChain(stages, ds, true, {}, today)
      invariant forall j :: j in done ==> j < k
      invariant forall j :: 0 <= j < k ==> (j in done <==> Due(ds[j], stages[j].positions, true, {}, setup))
      invariant queue == queued - EntitiesDone(ds, done)
      invariant r.Pass? && OwnersKept(old(ledger.positions), ledger.positions)
      invariant Reliable(cands, setup) ==> AllPlaceable(ds, ledger.positions, setup)
      invariant Sound(old(ledger.positions), day, setup, broker.frames, broker.policy) && Reliable(cands, setup) ==>
        Sound(ledger.positions, day, setup, broker.frames, broker.policy)
    {
      ghost var before := ledger.positions;
      if Reliable(cands, setup) { OneIsPlaceable(ds, k, before, setup); }
      var bought;
      r, bought := BuyIfAllowed(day, ds[k], setup, ledger, broker, result, initial);
      if r.Raise? { return; }
      OwnersChain(old(ledger.positions), before, ledger.positions);
      if Reliable(cands, setup) { StillPlaceable(ds, before, ledger.positions, setup); }
      DueFromQueue(ds[k], before, setup);
      OneMoreTurn(stages, ds, At(ledger, broker, result), true, {}, today);
      stages := stages + [At(ledger, broker, result)];
      if bought {
        queue := queue - {ds[k].entity};
        OneMoreConverted(ds, done, k);
        done := done + [k];
      }
    }
    t := QueueTrace(ready, ds, stages, done);
  }

  lemma NoTurnYet(a: Stage, ds: seq<BuyDecision>, fromQueue: bool, swapped: set<Id>, today: Today)
    ensures DecisionChain([a], ds, fromQueue, swapped, today)
  {
  }

  lemma DueFromQueue(d: BuyDecision, positions: map<Id, Position>, setup: Setup)
    ensures Due(d, positions, true, {}, setup) <==> StillAllowed(d, positions, setup.params) && d.entity in setup.entities
  {
    hide StillAllowed;
  }

  /** The entities of the decisions carried out. */
  ghost function EntitiesDone(ds: seq<BuyDecision>, done: seq<nat>): set<string> {
    set k | k in done && k < |ds| :: ds[k].entity
  }

  lemma NoneConverted(ds: seq<BuyDecision>, queued: map<string, int>)
    ensures queued - EntitiesDone(ds, []) == queued && EntitiesDone([], []) == EntitiesDone(ds, [])
  {
  }

  lemma OneMoreConverted(ds: seq<BuyDecision>, done: seq<nat>, k: nat)
    requires k < |ds|
    ensures EntitiesDone(ds, done + [k]) == EntitiesDone(ds, done) + {ds[k].entity}
  {
  }

  /** The decisions are a greedy choice among the eligible candidates, within the capital and the caps. */
  ghost predicate WellDecided(ds: seq<BuyDecision>, cands: seq<BuyCandidate>, positions: map<Id, Position>, params: Params) {
    exists v, rows, places, selected, picks :: Decided(ds, cands, positions, params, v, rows, places, selected, picks)
  }

  lemma WaitingAreReliable(waiting: seq<BuyCandidate>, cands: seq<BuyCandidate>, entities: set<string>, setup: Setup)
    requires AreWaiting(waiting, cands, entities)
    ensures Reliable(cands, setup) ==> Reliable(waiting, setup)
  {
    hide IsEntity;
  }

  /** Decisions are made on given candidates, and aim at the candidate's own position. */
  lemma DecisionsArePlaceable(ds: seq<BuyDecision>, cands: seq<BuyCandidate>, positions: map<Id, Position>, params: Params, setup: Setup)
    requires WellDecided(ds, cands, positions, params) && FitOpenPositions(ds, positions, params) && forall i :: 0 <= i < |ds| ==> Aimed(ds[i])
    ensures Reliable(cands, setup) ==> AllPlaceable(ds, positions, setup)
  {
    hide IsEntity, EligibleRow, Views, TotalNotional, NotionalIn, RightlyLeftOut, DistinctEntries;
    if Reliable(cands, setup) {
      var v: OpenView, rows: seq<Row>, places: seq<nat>, selected: seq<Row>, picks: seq<nat> :|
        Decided(ds, cands, positions, params, v, rows, places, selected, picks);
      forall i | 0 <= i < |ds| ensures Placeable(ds[i], positions, setup) {
        var row := selected[picks[i]];
        assert row in selected && row in rows && row.cand in cands;
        assert Serves(ds[i], row);
      }
    }
  }

  /** `decide_buys` on the ledger as it stands. */
  method DecideOnOpen(cands: seq<BuyCandidate>, ledger: EntityPositionLedger, params: Params) returns (ds: seq<BuyDecision>)
    ensures FitOpenPositions(ds, ledger.positions, params) && WellDecided(ds, cands, ledger.positions, params)
    ensures forall i :: 0 <= i < |ds| ==> Aimed(ds[i])
  {
    hide Decided;
    var ids := ledger.OpenPositions();
    ghost var v, rows, places, selected, picks;
    ds, v, rows, places, selected, picks := DecideBuys(cands, ledger.positions, ids, params);
  }

  /** What the queue makes of the strongest newcomer when all slots are taken: a swap against the weakest safe position, if
      no guard objects and the newcomer scores higher; else a place in the queue. */
  ghost function QueueVerdict(full: bool, held: seq<HeldRow>, newcomers: seq<NewRow>, queue: map<string, int>, day: int,
                              setup: Setup): (map<string, int>, set<Id>) {
    if !full || newcomers == [] then (queue, {})
    else
      var best := newcomers[0];
      if Blocked(best.cand, day, setup) || held == [] || best.score <= held[0].score then (Enqueue(queue, best.cand, day), {})
      else (queue - {best.cand.entity}, {held[0].id})
  }

  predicate Blocked(c: BuyCandidate, day: int, setup: Setup) {
    setup.outside.turnoverTooHigh(day) || setup.outside.recentlyTraded(day, c.entity)
  }

  /** The queue of a day: the queued entries up to stage `mid`, what they left queued, and the pools looked at then. */
  datatype GuardTrace = GuardTrace(entries: QueueTrace, mid: Stage, left: map<string, int>, held: seq<HeldRow>, newcomers: seq<NewRow>)

  /** After the queued entries the strongest newcomer swaps with the weakest safe position, waits, or nothing happens, exactly as
      guards, pools and scores say. */
  ghost predicate GuardAsSpecified(t: GuardTrace, a: Stage, b: Stage, queued: map<string, int>, queue: map<string, int>, swapped: set<Id>,
                                   cands: seq<BuyCandidate>, ds: seq<BuyDecision>, today: Today)
  {
    var Today(day, setup, frames, policy) := today;
    && QueuedAsSpecified(t.entries, a, t.mid, queued, t.left, cands, today)
    && (Full(t.mid.positions, setup) ==>
          && IsNewcomerPool(t.newcomers, cands, ActiveTickers(t.mid.positions), EntitiesOf(t.mid.positions), ds, ByAllocationScore, false, setup.params)
          && (t.newcomers != [] && !Blocked(t.newcomers[0].cand, day, setup) ==>
                IsHeldPool(t.held, t.mid.positions, frames, cands, ByAllocationScore, true, day, setup)))
    && (queue, swapped) == QueueVerdict(Full(t.mid.positions, setup), t.held, t.newcomers, t.left, day, setup)
    && if swapped == {} then b == t.mid
       else t.held != [] && t.newcomers != [] && Swapped(t.held[0].id, t.newcomers[0], t.mid, b, today)
  }

  /** Queued entries first, which leaves the positions `mid` and the queue `left`; then, when full, at most one swap for the
      strongest newcomer, or a place in the queue for it. */
  method ExecuteSwapGuardQueue(day: int, cands: seq<BuyCandidate>, ds: seq<BuyDecision>, queued: map<string, int>, setup: Setup,
                               ledger: EntityPositionLedger, broker: SimBroker, result: BacktestResult, ghost initial: real)
    returns (r: Outcome<RunError>, queue: map<string, int>, swapped: set<Id>, ghost t: GuardTrace)
    requires broker.day == day && InOrder(ledger, broker, result, initial) && SlotsOf(ledger.positions, setup) && result.OnlyBuysRejected() && OneTickerEach(setup)
    modifies ledger, broker`cash, broker`holdings, broker`orders, broker`nextId, result`trades, result`rejected
    ensures result.OnlyBuysRejected()
    ensures r.Pass? ==>
      && InOrder(ledger, broker, result, initial) && SlotsOf(ledger.positions, setup)
      && GuardAsSpecified(t, old(At(ledger, broker, result)), At(ledger, broker, result), queued, queue, swapped, cands, ds, With(day, setup, broker))
      && OwnersKept(old(ledger.positions), ledger.positions)
    ensures Sound(old(ledger.positions), day, setup, broker.frames, broker.policy) && Reliable(cands, setup) ==>
      r.Pass? && Sound(ledger.positions, day, setup, broker.frames, broker.policy)
  {
    hide Balanced, Accounted, SlotsKept, ActiveTickers, IsHeldPool, IsNewcomerPool, EntitiesOf, OpenIds, SwapLeaves, Swapped, QueuedAsSpecified;
    hide Sound, OwnersKept, Reliable, IsEntity;
    swapped := {};
    ghost var entries;
    r, queue, entries := ExecuteQueuedEntries(day, cands, queued, setup, ledger, broker, result, initial);
    ghost var mid := ledger.positions;
    t := GuardTrace(entries, At(ledger, broker, result), queue, [], []);
    if r.Raise? { return; }
    var openTickers := ActiveTickers(ledger.positions);
    if MaxSlots(setup.params) <= 0 || |openTickers| < MaxSlots(setup.params) { return; }
    var ids := ledger.OpenPositions();
    var bPool := NewcomerPool(cands, openTickers, EntitiesOf(ledger.positions), ds, ByAllocationScore, false, setup.params);
    t := t.(newcomers := bPool);
    if bPool == [] { return; }
    var best := bPool[0];
    if setup.outside.turnoverTooHigh(day) || setup.outside.recentlyTraded(day, best.cand.entity) {
      queue := Enqueue(queue, best.cand, day);
      return;
    }
    var aPool := HeldPool(day, ids, ledger.positions, broker.frames, cands, ByAllocationScore, true, setup);
    t := t.(held := aPool);
    if aPool == [] || best.score <= aPool[0].score {
      queue := Enqueue(queue, best.cand, day);
      return;
    }
    PoolsAreDistinct(aPool, bPool, mid, broker.frames, cands, EntitiesOf(mid), ds, day, true, ByAllocationScore, false, setup);
    NewcomersAreReliable(bPool, cands, ActiveTickers(mid), EntitiesOf(mid), ds, ByAllocationScore, false, setup);
    r := SwapOne(day, aPool[0].id, best, setup, ledger, broker, result, initial);
    if r.Raise? { return; }
    OwnersChain(old(ledger.positions), mid, ledger.positions);
    swapped, queue := {aPool[0].id}, queue - {best.cand.entity};
  }
}
