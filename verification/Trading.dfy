/** Sending a ledger intent to the simulated broker and booking the answer. */
module Trading {
  import opened Common
  import opened Orders
  import opened LedgerSpec
  import opened EntityLedger
  import opened Market
  import opened SimBrokerSpec
  import opened SimBrokers
  import opened Books

  /** Any exception that ends a backtest run. */
  datatype RunError = LedgerFault(ledger: LedgerError) | BrokerFault(broker: BrokerError) | MissingEntity | MissingPrice

  function LiftLedger(r: Outcome<LedgerError>): Outcome<RunError> {
    match r
    case Pass => Pass
    case Raise(e) => Raise(LedgerFault(e))
  }

  /** The broker answered with `o`, and the ledger put that on record and booked what it filled. */
  ghost predicate Booked(s: LedgerState, iid: Id, b: BrokerState, quote: (real, int), rate: real, o: Order, eid: Id, newId: Id,
                         s': LedgerState, b': BrokerState)
  {
    && iid in s.intents && o.id !in b.orders && eid !in s.executions && newId !in s.positions
    && (b', o) == SimBrokerSpec.Submit(b, s.intents[iid].ticker, s.intents[iid].side, s.intents[iid].requested, quote.0, rate, o.id, quote.1)
    && LedgerSpec.RecordExecution(s, iid, o, eid, newId) == Ok(s')
  }

  /** The broker answered with `o`, and the ledger refused to book it. */
  ghost predicate NotBooked(s: LedgerState, iid: Id, b: BrokerState, quote: (real, int), rate: real, o: Order, eid: Id, newId: Id) {
    && iid in s.intents && eid !in s.executions
    && o == SimBrokerSpec.Submit(b, s.intents[iid].ticker, s.intents[iid].side, s.intents[iid].requested, quote.0, rate, o.id, quote.1).1
    && LedgerSpec.RecordExecution(s, iid, o, eid, newId).Err?
  }

  /** Dispatch an open intent once: an intent that already has its execution is not sent again. */
  method DispatchExecution(ledger: EntityPositionLedger, iid: Id, broker: SimBroker)
    returns (r: Outcome<RunError>, eid: Id, ghost o: Order, ghost newId: Id)
    requires broker.Valid()
    modifies ledger, broker`cash, broker`holdings, broker`orders, broker`nextId
    ensures broker.Valid()
    ensures iid !in old(ledger.intents) ==> r == Raise(LedgerFault(IntentNotFound))
    ensures iid in old(ledger.intents) ==>
      var i := old(ledger.intents)[iid];
      if i.execution.Some? && i.execution.value in old(ledger.executions)
      then r == Pass && eid == i.execution.value && ledger.State() == old(ledger.State()) && broker.State() == old(broker.State())
      else
        && (i.ticker in old(ledger.blocked) ==> r == Raise(LedgerFault(ReconcileBlocked)))
        && (r.Pass? ==>
             && ExecutionPrice(broker.frames, broker.policy, i.ticker, i.side, broker.day).Some?
             && Booked(old(ledger.State()), iid, old(broker.State()), ExecutionPrice(broker.frames, broker.policy, i.ticker, i.side, broker.day).value,
                       broker.policy.commissionRate, o, eid, newId, ledger.State(), broker.State()))
        && (r.Raise? ==>
             i.ticker in old(ledger.blocked) || i.requested <= 0 || ExecutionPrice(broker.frames, broker.policy, i.ticker, i.side, broker.day).None?
             || NotBooked(old(ledger.State()), iid, old(broker.State()), ExecutionPrice(broker.frames, broker.policy, i.ticker, i.side, broker.day).value,
                          broker.policy.commissionRate, o, eid, newId))
  {
    eid := 0;
    newId := 0;
    o := Order(0, "", Buy, 0, 0.0, Rejected, 0, 0.0, 0.0, 0);
    if iid !in ledger.intents { return Raise(LedgerFault(IntentNotFound)), eid, o, newId; }
    var i := ledger.intents[iid];
    if i.execution.Some? && i.execution.value in ledger.executions {
      return Pass, i.execution.value, o, newId;
    }
    if i.ticker in ledger.blocked { return Raise(LedgerFault(ReconcileBlocked)), eid, o, newId; }
    var placed, order := broker.Submit(i.ticker, i.side, i.requested);
    o := order;
    if placed.Raise? { return Raise(BrokerFault(placed.error)), eid, o, newId; }
    var recorded;
    recorded, eid, newId := ledger.RecordExecution(iid, order);
    r := LiftLedger(recorded);
  }

  /** What a completed trade did: the broker answered with `o`, and the ledger booked it into `pid`. */
  ghost predicate Done(s: LedgerState, s': LedgerState, b: BrokerState, b': BrokerState, entity: string, ticker: string, side: Side,
                       shares: int, target: Option<Id>, rate: real, o: Order, pid: Id)
    requires shares > EPSILON
  {
    && o.id !in b.orders
    && (b', o) == SimBrokerSpec.Submit(b, ticker, side, shares, o.price, rate, o.id, o.filledAt)
    && OthersKept(s, s')
    && if o.status == Filled then BookedFill(s, s', entity, ticker, side, shares, target, o.avg, o.filledAt, pid)
       else o.status == Rejected && s'.positions == s.positions
  }

  /** The order was priced by the data of the day. */
  ghost predicate Quoted(frames: map<string, Frame>, policy: FillPolicy, ticker: string, side: Side, day: int, o: Order) {
    var quote := ExecutionPrice(frames, policy, ticker, side, day);
    && quote.Some? && o.price == quote.value.0
    && (o.status == Filled ==> o.avg == o.price && o.filledAt == quote.value.1 && o.filled == o.shares)
  }

  /** Nothing the ledger objects to: named owner, more than dust, and a target of the same owner that a sale does not overdraw. */
  predicate CanTrade(positions: map<Id, Position>, entity: string, ticker: string, side: Side, shares: int, target: Option<Id>) {
    && entity != "" && ticker != "" && shares > EPSILON
    && (target.Some? && target.value in positions ==>
          var p := positions[target.value]; p.entity == entity && p.ticker == ticker && (side == Sell ==> shares <= p.openShares))
    && (side == Sell ==> target.Some? && target.value in positions)
  }

  /** The data of the day give the simulator a positive price. */
  predicate Quotable(frames: map<string, Frame>, policy: FillPolicy, ticker: string, side: Side, day: int) {
    var quote := ExecutionPrice(frames, policy, ticker, side, day);
    quote.Some? && quote.value.0 > 0.0
  }

  /** Open an intent, dispatch it, and poll the order once more when it filled, as every trade of a run does. */
  method Trade(ledger: EntityPositionLedger, broker: SimBroker, entity: string, ticker: string, side: Side, purpose: string,
               shares: int, target: Option<Id>)
    returns (r: Outcome<RunError>, o: Order, pid: Id)
    requires broker.Valid() && Settled(ledger.State())
    modifies ledger, broker`cash, broker`holdings, broker`orders, broker`nextId
    ensures broker.Valid()
    ensures r.Pass? ==>
      && entity != "" && ticker != "" && shares > EPSILON && o.shares == shares
      && Quoted(broker.frames, broker.policy, ticker, side, broker.day, o)
      && Done(old(ledger.State()), ledger.State(), old(broker.State()), broker.State(), entity, ticker, side, shares, target,
              broker.policy.commissionRate, o, pid)
    ensures CanTrade(old(ledger.positions), entity, ticker, side, shares, target) && Quotable(broker.frames, broker.policy, ticker, side, broker.day) ==>
      r.Pass?
  {
    hide ExecutionPrice, CanTrade, Quotable, NotBooked, Booked, Done, BookedFill, OthersKept, RequestOf;
    hide LedgerSpec.ApplyFill, LedgerSpec.RecordExecution, SimBrokerSpec.Submit, IntentComplaint, Settled;
    pid := 0;
    o := Order(0, ticker, side, shares, 0.0, Rejected, 0, 0.0, 0.0, 0);
    ghost var s, b, quote := ledger.State(), broker.State(), ExecutionPrice(broker.frames, broker.policy, ticker, side, broker.day);
    ghost var rate := broker.policy.commissionRate;
    Complaints(s, entity, ticker, side, shares, target);
    QuotableAt(broker.frames, broker.policy, ticker, side, broker.day);
    var registered, iid := ledger.OpenIntent(entity, ticker, side, purpose, shares, target);
    if registered.Raise? { return LiftLedger(registered), o, pid; }
    ghost var asked := ledger.State();
    NewRequest(s, asked, iid, entity, ticker, side, purpose, shares, target);
    var eid; ghost var answer, newId;
    r, eid, answer, newId := DispatchExecution(ledger, iid, broker);
    if r.Raise? {
      if CanTrade(s.positions, entity, ticker, side, shares, target) && quote.Some? && quote.value.0 > 0.0 {
        AnswerIsBooked(asked, iid, b, quote.value, rate, answer, eid, newId);
      }
      return;
    }
    // The order just placed is always on the broker's books, so the lookup below never misses.
    ghost var dispatched := ledger.State();
    BookedTrade(s, asked, iid, entity, ticker, side, purpose, shares, target, b, quote.value, rate, answer, eid, newId, dispatched, broker.State());
    o := broker.orders[ledger.executions[eid].order];
    if o.status != Filled { return; }
    pid := ledger.executions[eid].position.value;
    var polled; ghost var newId2;
    polled, newId2 := ledger.ApplyFill(eid, o);
    PolledBooking(s, asked, iid, entity, ticker, side, purpose, shares, target, b, quote.value, rate, o, eid, newId, dispatched, broker.State(), newId2);
    r := LiftLedger(polled);
  }

  /** A settled ledger with a new intent on top. */
  ghost predicate RequestOf(s: LedgerState, asked: LedgerState, iid: Id, entity: string, ticker: string, side: Side, purpose: string,
                            shares: int, target: Option<Id>)
  {
    && Settled(s) && shares > EPSILON && iid !in s.intents
    && asked == s.(intents := s.intents[iid := Intent(entity, ticker, side, purpose, target, shares, OpenState, None)])
  }

  /** In a settled ledger no request is on its way, so a wish to trade becomes a new intent. */
  lemma NewRequest(s: LedgerState, asked: LedgerState, iid: Id, entity: string, ticker: string, side: Side, purpose: string, shares: int, target: Option<Id>)
    requires Settled(s) && shares > EPSILON
    requires if exists i :: i in s.intents && SameRequest(s.intents[i], entity, ticker, side, purpose, target) then asked == s
             else iid !in s.intents && asked == s.(intents := s.intents[iid := Intent(entity, ticker, side, purpose, target, shares, OpenState, None)])
    ensures RequestOf(s, asked, iid, entity, ticker, side, purpose, shares, target)
    ensures iid in asked.intents && iid !in s.intents && asked.positions == s.positions && asked.blocked == {}
    ensures asked.intents[iid] == Intent(entity, ticker, side, purpose, target, shares, OpenState, None)
    ensures forall id :: id in asked.positions ==> asked.positions[id].openShares >= 0
  {
  }

  lemma BookedTrade(s: LedgerState, asked: LedgerState, iid: Id, entity: string, ticker: string, side: Side, purpose: string, shares: int,
                    target: Option<Id>, b: BrokerState, quote: (real, int), rate: real, o: Order, eid: Id, newId: Id,
                    dispatched: LedgerState, b': BrokerState)
    requires RequestOf(s, asked, iid, entity, ticker, side, purpose, shares, target)
    requires Booked(asked, iid, b, quote, rate, o, eid, newId, dispatched, b')
    ensures eid in dispatched.executions && dispatched.executions[eid].order == o.id && o.id in b'.orders && b'.orders[o.id] == o
    ensures o.shares == shares && o.price == quote.0
    ensures o.status == Filled ==>
      o.avg == o.price && o.filledAt == quote.1 && o.filled == o.shares && dispatched.executions[eid].position.Some?
    ensures forall pid: Id :: (o.status == Filled ==> Some(pid) == dispatched.executions[eid].position) ==>
      Done(s, dispatched, b, b', entity, ticker, side, shares, target, rate, o, pid)
  {
    hide LedgerSpec.RecordExecution, BookedFill, OthersKept, AfterBuy, AfterSell, TurnedDown, Settled;
    RecordedOrder(asked, iid, o, eid, newId, dispatched);
    DispatchedTrade(s, asked, iid, entity, ticker, side, purpose, shares, target, o, eid, newId, dispatched);
  }

  lemma PolledBooking(s: LedgerState, asked: LedgerState, iid: Id, entity: string, ticker: string, side: Side, purpose: string, shares: int,
                      target: Option<Id>, b: BrokerState, quote: (real, int), rate: real, o: Order, eid: Id, newId: Id,
                      dispatched: LedgerState, b': BrokerState, newId2: Id)
    requires RequestOf(s, asked, iid, entity, ticker, side, purpose, shares, target) && o.status == Filled
    requires Booked(asked, iid, b, quote, rate, o, eid, newId, dispatched, b')
    ensures eid in dispatched.executions && dispatched.executions[eid].position.Some?
    ensures var polled := LedgerSpec.ApplyFill(dispatched, eid, o, newId2);
      polled.Ok? && Done(s, polled.value, b, b', entity, ticker, side, shares, target, rate, o, dispatched.executions[eid].position.value)
  {
    hide LedgerSpec.RecordExecution, LedgerSpec.ApplyFill, AfterBuy, AfterSell, TurnedDown, Settled, Traded;
    BookedTrade(s, asked, iid, entity, ticker, side, purpose, shares, target, b, quote, rate, o, eid, newId, dispatched, b');
    PolledTrade(asked, iid, o, eid, newId, newId2);
  }

  /** The ledger objects to a request only for one of the reasons that `CanTrade` rules out. */
  lemma Complaints(s: LedgerState, entity: string, ticker: string, side: Side, shares: int, target: Option<Id>)
    requires Settled(s)
    ensures CanTrade(s.positions, entity, ticker, side, shares, target) ==> IntentComplaint(s, entity, ticker, side, shares, target) == None
    ensures IntentComplaint(s, entity, ticker, side, shares, target) == None ==> entity != "" && ticker != "" && shares > EPSILON
  {
  }

  /** A trade the ledger does not object to is booked, whether it fills or not. */
  lemma AnswerIsBooked(asked: LedgerState, iid: Id, b: BrokerState, quote: (real, int), rate: real, o: Order, eid: Id, newId: Id)
    requires iid in asked.intents && quote.0 > 0.0
    requires var i := asked.intents[iid]; CanTrade(asked.positions, i.entity, i.ticker, i.side, i.requested, i.target)
    requires forall id :: id in asked.positions ==> asked.positions[id].openShares >= 0
    ensures !NotBooked(asked, iid, b, quote, rate, o, eid, newId)
  {
    hide AfterBuy, AfterSell, TurnedDown;
    if NotBooked(asked, iid, b, quote, rate, o, eid, newId) {
      AnswerIsRecorded(asked, iid, o, eid, newId);
    }
  }

  lemma AnswerIsRecorded(asked: LedgerState, iid: Id, o: Order, eid: Id, newId: Id)
    requires iid in asked.intents && eid !in asked.executions
    requires var i := asked.intents[iid]; CanTrade(asked.positions, i.entity, i.ticker, i.side, i.requested, i.target) && o.shares == i.requested
    requires forall id :: id in asked.positions ==> asked.positions[id].openShares >= 0
    requires (o.status == Filled && o.filled == o.shares && o.avg > 0.0) || (o.status == Rejected && o.filled == 0)
    ensures LedgerSpec.RecordExecution(asked, iid, o, eid, newId).Ok?
  {
  }

  lemma QuotableAt(frames: map<string, Frame>, policy: FillPolicy, ticker: string, side: Side, day: int)
    ensures Quotable(frames, policy, ticker, side, day) <==>
              var quote := ExecutionPrice(frames, policy, ticker, side, day); quote.Some? && quote.value.0 > 0.0
  {
    hide ExecutionPrice;
  }

  /** What the ledger looks like once a newly opened intent has been dispatched and answered. */
  lemma DispatchedTrade(s: LedgerState, asked: LedgerState, iid: Id, entity: string, ticker: string, side: Side, purpose: string,
                        shares: int, target: Option<Id>, o: Order, eid: Id, newId: Id, dispatched: LedgerState)
    requires Settled(s) && shares > EPSILON && iid !in s.intents
    requires asked == s.(intents := s.intents[iid := Intent(entity, ticker, side, purpose, target, shares, OpenState, None)])
    requires eid !in asked.executions && newId !in asked.positions
    requires o.shares == shares
    requires (o.status == Filled && o.filled == o.shares && o.price == o.avg) || (o.status == Rejected && o.filled == 0)
    requires LedgerSpec.RecordExecution(asked, iid, o, eid, newId) == Ok(dispatched)
    ensures OthersKept(s, dispatched) && eid in dispatched.executions
    ensures if o.status == Filled
            then dispatched.executions[eid].position.Some?
                 && BookedFill(s, dispatched, entity, ticker, side, shares, target, o.avg, o.filledAt, dispatched.executions[eid].position.value)
            else dispatched.positions == s.positions
  {
    if o.status == Filled {
      FilledOrderIsBooked(asked, iid, o, eid, newId);
    } else {
      RejectedOrderIsRecorded(asked, iid, o, eid, newId);
    }
    IntentsKept(s, asked, iid, o, eid, newId, dispatched);
  }

  /** Recording the answer resolves the new intent and touches no other. */
  lemma IntentsKept(s: LedgerState, asked: LedgerState, iid: Id, o: Order, eid: Id, newId: Id, dispatched: LedgerState)
    requires iid in asked.intents && iid !in s.intents && asked == s.(intents := asked.intents)
    requires forall i :: i in asked.intents ==> i == iid || (i in s.intents && asked.intents[i] == s.intents[i])
    requires o.status in {Filled, Rejected}
    requires LedgerSpec.RecordExecution(asked, iid, o, eid, newId) == Ok(dispatched)
    ensures OthersKept(s, dispatched)
  {
  }

  /** The extra poll of a filled order leaves the positions and the resolved intents alone. */
  lemma PolledTrade(asked: LedgerState, iid: Id, o: Order, eid: Id, newId: Id, newId2: Id)
    requires iid in asked.intents
    requires o.status == Filled && o.filled > EPSILON
    requires LedgerSpec.RecordExecution(asked, iid, o, eid, newId).Ok?
    ensures var once := LedgerSpec.RecordExecution(asked, iid, o, eid, newId).value;
            var twice := LedgerSpec.ApplyFill(once, eid, o, newId2);
            && twice.Ok? && twice.value.positions == once.positions && twice.value.blocked == once.blocked
            && twice.value.intents.Keys == once.intents.Keys
            && forall i :: i in once.intents ==> twice.value.intents[i] == once.intents[i] || !Unresolved(twice.value.intents[i].status)
  {
  }

  /** A recorded execution carries the number of its order. */
  lemma RecordedOrder(s: LedgerState, iid: Id, o: Order, eid: Id, newId: Id, s': LedgerState)
    requires iid in s.intents && LedgerSpec.RecordExecution(s, iid, o, eid, newId) == Ok(s')
    ensures eid in s'.executions && s'.executions[eid].order == o.id
  {
  }
}
