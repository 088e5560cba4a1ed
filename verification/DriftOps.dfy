/** The operations behind the events of a drift run: a ledger that trades through the scripted broker. */
module DriftOps {
  import opened Common
  import opened Orders
  import opened LedgerSpec
  import opened EntityLedger
  import opened MockBrokerSpec
  import opened MockBrokers
  import opened Drift

  ghost function Both(ledger: EntityPositionLedger, broker: MockBroker): System
    reads ledger, broker
  {
    System(ledger.State(), broker.State())
  }

  /** Every request has its execution, and every execution an order of this broker. */
  ghost predicate Dispatched(s: LedgerState, nextOrder: Id) {
    && (forall i :: i in s.intents ==> s.intents[i].execution.Some?)
    && (forall x :: x in s.executions ==> s.executions[x].order < nextOrder)
  }

  ghost predicate Tied(ledger: EntityPositionLedger, broker: MockBroker)
    reads ledger, broker
  {
    broker.Valid() && Dispatched(ledger.State(), broker.nextId)
  }

  lemma FillKeepsDispatched(s: LedgerState, x: Id, o: Order, newId: Id, nextOrder: Id)
    requires Dispatched(s, nextOrder) && ApplyFill(s, x, o, newId).Ok?
    ensures Dispatched(ApplyFill(s, x, o, newId).value, nextOrder)
  {
    hide DeltaPrice, PositionAfterFill, FillComplaint;
  }

  lemma RecordKeepsDispatched(s: LedgerState, iid: Id, o: Order, eid: Id, newId: Id, nextOrder: Id)
    requires iid in s.intents && o.id < nextOrder
    requires (forall i :: i in s.intents ==> i == iid || s.intents[i].execution.Some?) && forall x :: x in s.executions ==> s.executions[x].order < nextOrder
    ensures Dispatched(WithExecution(s, iid, o, eid), nextOrder)
    ensures RecordExecution(s, iid, o, eid, newId).Ok? ==> Dispatched(RecordExecution(s, iid, o, eid, newId).value, nextOrder)
  {
    hide ApplyFill;
    var recorded := WithExecution(s, iid, o, eid);
    if o.filled > EPSILON && ApplyFill(recorded, eid, o, newId).Ok? { FillKeepsDispatched(recorded, eid, o, newId, nextOrder); }
  }

  /** A request: registered, sent unless it is already on its way, and the broker's first answer booked. */
  method SendRequest(ledger: EntityPositionLedger, broker: MockBroker, entity: string, ticker: string, side: Side, purpose: string, shares: int,
                     target: Option<Id>)
    returns (r: Outcome<LedgerError>, ghost e: Event)
    requires Tied(ledger, broker)
    modifies ledger, broker
    ensures Tied(ledger, broker)
    ensures e.Request? && e == Request(entity, ticker, side, purpose, shares, target, e.iid, e.oid, e.eid, e.pid)
    ensures FreshIds(old(Both(ledger, broker)), e)
    ensures Performed(old(Both(ledger, broker)), e, r, Both(ledger, broker))
  {
    hide ApplyFill, RecordExecution, AfterSubmit, Submitted;
    ghost var before := Both(ledger, broker);
    ghost var iid0 := FreshIdExists(ledger.intents.Keys);
    ghost var eid0 := FreshIdExists(ledger.executions.Keys);
    ghost var pid0 := FreshIdExists(ledger.positions.Keys);
    e := Request(entity, ticker, side, purpose, shares, target, iid0, broker.nextId, eid0, pid0);
    var iid;
    r, iid := ledger.OpenIntent(entity, ticker, side, purpose, shares, target);
    if r.Raise? || ledger.intents[iid].execution.Some? { return; }
    var o := broker.Submit(ticker, side, shares);
    e := Request(entity, ticker, side, purpose, shares, target, iid, o.id, eid0, pid0);
    ghost var asked := ledger.State();
    assert asked == WithIntent(before.ledger, e);
    var eid;
    ghost var pid;
    r, eid, pid := ledger.RecordExecution(iid, o);
    e := Request(entity, ticker, side, purpose, shares, target, iid, o.id, eid, pid);
    RecordKeepsDispatched(asked, iid, o, eid, pid, broker.nextId);
  }

  /** Polling an execution: the broker's next report of its order is booked. */
  method PollExecution(ledger: EntityPositionLedger, broker: MockBroker, x: Id) returns (r: Outcome<LedgerError>, ghost e: Event)
    requires Tied(ledger, broker)
    modifies ledger, broker
    ensures Tied(ledger, broker)
    ensures e.Poll? && e == Poll(x, e.newId) && e.newId !in old(ledger.positions)
    ensures Performed(old(Both(ledger, broker)), e, r, Both(ledger, broker))
  {
    hide ApplyFill, AfterPoll, Polled;
    ghost var pid0 := FreshIdExists(ledger.positions.Keys);
    e := Poll(x, pid0);
    if x !in ledger.executions { return Raise(ExecutionNotFound), e; }
    var o := broker.GetOrder(ledger.executions[x].order);
    if o.None? { return Pass, e; }
    ghost var s, newId := ledger.State(), 0;
    r, newId := ledger.ApplyFill(x, o.value);
    e := Poll(x, newId);
    if r.Pass? { FillKeepsDispatched(s, x, o.value, newId, broker.nextId); }
  }

  /** The objects went through the step of the event, or the ledger raised its error. */
  ghost predicate Performed(before: System, e: Event, r: Outcome<LedgerError>, after: System)
    requires e.Request? ==> FreshIds(before, e)
  {
    match Step(before, e)
    case Ok(next) => r == Pass && after == next
    case Err(error) => r == Raise(error) && after == if Refused(before, e) then before else Drift.Failed(before, e)
  }
}
