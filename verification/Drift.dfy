/** Ledger and scripted broker under partial fills: how far their share counts can drift apart. */
module Drift {
  import opened Common
  import opened Orders
  import opened Sums
  import opened LedgerSpec
  import opened MockBrokerSpec

  datatype System = System(ledger: LedgerState, mock: MockState)

  const Start: System := System(EmptyLedger, EmptyMock)

  /** What the outside can do: script the next order, trade through the ledger, poll one execution, reconcile both sides.
      The ids are those the operation would draw; they must be new. */
  datatype Event =
    | Script(scenario: Scenario)
    | Request(entity: string, ticker: string, side: Side, purpose: string, shares: int, target: Option<Id>, iid: Id, oid: Id, eid: Id, pid: Id)
    | Poll(execution: Id, newId: Id)
    | Reconcile

  /** An order and the ids drawn with it are new to both sides. */
  predicate FreshIds(sys: System, e: Event)
    requires e.Request?
  {
    e.iid !in sys.ledger.intents && e.eid !in sys.ledger.executions && e.pid !in sys.ledger.positions &&
    e.oid !in sys.mock.orders && e.oid !in sys.mock.applied && forall x :: x in sys.ledger.executions ==> sys.ledger.executions[x].order != e.oid
  }

  /** The intent of a request is already on its way. */
  predicate Repeated(s: LedgerState, e: Event)
    requires e.Request?
  {
    exists i :: i in s.intents && SameRequest(s.intents[i], e.entity, e.ticker, e.side, e.purpose, e.target)
  }

  function WithIntent(s: LedgerState, e: Event): LedgerState
    requires e.Request?
  {
    s.(intents := s.intents[e.iid := Intent(e.entity, e.ticker, e.side, e.purpose, e.target, e.shares, OpenState, None)])
  }

  /** One event; an error is an exception the ledger raises. */
  ghost function Step(sys: System, e: Event): Result<System, LedgerError>
    requires e.Request? ==> FreshIds(sys, e)
  {
    match e
    case Script(scenario) => Ok(sys.(mock := sys.mock.(scenarios := sys.mock.scenarios + [scenario])))
    case Request(entity, ticker, side, purpose, shares, target, iid, oid, eid, pid) =>
      if IntentComplaint(sys.ledger, entity, ticker, side, shares, target).Some? then
        Err(IntentComplaint(sys.ledger, entity, ticker, side, shares, target).value)
      else if Repeated(sys.ledger, e) then Ok(sys)
      else
        (match RecordExecution(WithIntent(sys.ledger, e), iid, Submitted(sys.mock, ticker, side, shares, oid), eid, pid)
         case Err(error) => Err(error)
         case Ok(ledger) => Ok(System(ledger, AfterSubmit(sys.mock, ticker, side, shares, oid))))
    case Poll(x, newId) =>
      if x !in sys.ledger.executions then Err(ExecutionNotFound)
      else
        var oid := sys.ledger.executions[x].order;
        if oid !in sys.mock.orders then Ok(sys)
        else
          (match ApplyFill(sys.ledger, x, Polled(sys.mock, oid), newId)
           case Err(error) => Err(error)
           case Ok(ledger) => Ok(System(ledger, AfterPoll(sys.mock, oid))))
    case Reconcile => Ok(sys.(ledger := Reconciled(sys.ledger, sys.mock.holdings)))
  }

  /** The ledger refuses before either side has done anything. */
  predicate Refused(sys: System, e: Event) {
    match e
    case Request(entity, ticker, side, _, shares, target, _, _, _, _) => IntentComplaint(sys.ledger, entity, ticker, side, shares, target).Some?
    case Poll(x, _) => x !in sys.ledger.executions
    case _ => false
  }

  /** The report that an event brings, if any. */
  function ReportOf(sys: System, e: Event): Option<Order> {
    match e
    case Script(_) => None
    case Reconcile => None
    case Request(entity, ticker, side, purpose, shares, target, iid, oid, eid, pid) =>
      if Repeated(sys.ledger, e) then None else Some(Submitted(sys.mock, ticker, side, shares, oid))
    case Poll(x, _) =>
      if x in sys.ledger.executions && sys.ledger.executions[x].order in sys.mock.orders then Some(Polled(sys.mock, sys.ledger.executions[x].order)) else None
  }

  /** No report sells more than the broker holds. */
  predicate Covered(sys: System, e: Event) {
    var o := ReportOf(sys, e);
    o.Some? && o.value.side == Sell ==> NewUnits(sys.mock, o.value) <= HeldBy(sys.mock, o.value.ticker)
  }

  // ---- the books of the drift ----------------------------------------------------

  function Signed(side: Side, units: int): int { if side == Buy then units else -units }

  function Applied(applied: map<Id, int>, oid: Id): int { if oid in applied then applied[oid] else 0 }

  /** Units the broker has applied for an execution and the ledger has not yet, signed by side. */
  function PendingIn(applied: map<Id, int>, ticker: string): Execution -> real {
    (e: Execution) => if e.ticker == ticker then Signed(e.side, Applied(applied, e.order) - e.applied) as real else 0.0
  }

  function IsIn(ticker: string): Execution -> real {
    (e: Execution) => if e.ticker == ticker then 1.0 else 0.0
  }

  ghost function Pending(sys: System, ticker: string): real {
    SumBy(sys.ledger.executions, PendingIn(sys.mock.applied, ticker))
  }

  /** Broker units beyond the ledger's that no pending report explains. */
  ghost function Unexplained(sys: System, ticker: string): real {
    HeldBy(sys.mock, ticker) as real - OpenTotal(sys.ledger.positions, ticker) - Pending(sys, ticker)
  }

  /** A position of the ticker with open shares ends the step without any. */
  predicate ClosesOne(before: LedgerState, after: LedgerState, ticker: string) {
    exists id :: id in before.positions && id in after.positions && before.positions[id].ticker == ticker &&
      before.positions[id].openShares > 0 && after.positions[id].openShares == 0
  }

  /** No execution is ahead of what the broker applied for its order. */
  ghost predicate Lagging(executions: map<Id, Execution>, m: MockState) {
    forall x :: x in executions ==>
      var e := executions[x];
      && 0 <= e.applied <= Applied(m.applied, e.order)
      && (e.order in m.orders ==> m.orders[e.order].ticker == e.ticker && m.orders[e.order].side == e.side)
  }

  ghost predicate ToldApart(executions: map<Id, Execution>) {
    forall x, y :: x in executions && y in executions && x != y ==> executions[x].order != executions[y].order
  }

  ghost predicate NoShorts(positions: map<Id, Position>) {
    forall id :: id in positions ==> positions[id].openShares >= 0
  }

  /** Holdings are positive, and no order on the books reports more than was applied. */
  ghost predicate Consistent(m: MockState) {
    && (forall t :: t in m.holdings ==> m.holdings[t] > 0)
    && (forall k :: k in m.orders ==> m.orders[k].id == k && m.orders[k].filled <= Applied(m.applied, k))
  }

  /** What holds between events. */
  ghost predicate Linked(sys: System) {
    Lagging(sys.ledger.executions, sys.mock) && ToldApart(sys.ledger.executions) && NoShorts(sys.ledger.positions) && Consistent(sys.mock)
  }

  // ---- one report ----------------------------------------------------------------

  /** Taking a report into the holdings moves them by exactly the new units, when the sale is covered. */
  lemma ReportMovesHoldings(m: MockState, o: Order, t: string)
    requires o.side == Sell ==> NewUnits(m, o) <= HeldBy(m, o.ticker)
    requires forall k :: k in m.holdings ==> m.holdings[k] > 0
    ensures var m' := WithReport(m, o); var delta := Max(NewUnits(m, o), 0);
      && HeldBy(m', t) as real == HeldBy(m, t) as real + (if t == o.ticker then Signed(o.side, delta) as real else 0.0)
      && Applied(m'.applied, o.id) == Applied(m.applied, o.id) + delta
      && (forall k :: k != o.id ==> Applied(m'.applied, k) == Applied(m.applied, k))
      && (forall k :: k in m'.holdings ==> m'.holdings[k] > 0)
  {
  }

  /** What booking a report does to the ledger: the applied count of the execution follows the order up to one unit,
      and the open units of its ticker move by the applied units, up to one unit when a position closes. */
  lemma ReportMovesLedger(s: LedgerState, x: Id, o: Order, newId: Id, s': LedgerState, t: string)
    requires x in s.executions && ApplyFill(s, x, o, newId) == Ok(s') && newId !in s.positions
    requires forall id :: id in s.positions ==> s.positions[id].openShares >= 0
    ensures var e := s.executions[x]; var applied := if o.filled - e.applied > EPSILON then o.filled else e.applied;
      && s'.executions.Keys == s.executions.Keys
      && (forall y :: y in s.executions && y != x ==> s'.executions[y] == s.executions[y])
      && s'.executions[x].ticker == e.ticker && s'.executions[x].side == e.side && s'.executions[x].order == e.order && s'.executions[x].applied == applied
      && (forall id :: id in s'.positions ==> s'.positions[id].openShares >= 0)
      && var residue := OpenTotal(s'.positions, t) - OpenTotal(s.positions, t) - (if t == e.ticker then Signed(e.side, applied - e.applied) as real else 0.0);
         -1.0 <= residue <= 1.0 && (residue != 0.0 ==> ClosesOne(s, s', t))
  {
    hide Sum, SumBy;
    var e := s.executions[x];
    if o.filled - e.applied > EPSILON {
      var pid := BuyTarget(s, e, newId);
      var p' := PositionAfterFill(s, e, o);
      assert s'.positions == s.positions[pid := p'];
      SumByUpdate(s.positions, pid, p', OpenIn(t));
      FillMovesUnits(s, e, o, pid, t);
      if pid in s.positions && s.positions[pid].openShares > 0 && p'.openShares == 0 && p'.ticker == t {
        assert ClosesOne(s, s', t);
      }
    } else {
      assert s'.positions == s.positions;
    }
  }

  /** A fill moves the open units of its own position by the filled units, up to one unit when it closes. */
  lemma FillMovesUnits(s: LedgerState, e: Execution, o: Order, pid: Id, t: string)
    requires o.filled - e.applied > EPSILON && FillComplaint(s, e, o, o.filled - e.applied).None?
    requires e.position.Some? ==> pid == e.position.value
    requires e.position.None? ==> pid !in s.positions
    requires pid in s.positions ==> s.positions[pid].openShares >= 0
    ensures var p' := PositionAfterFill(s, e, o); var before := if pid in s.positions then OpenIn(t)(s.positions[pid]) else 0.0;
      var residue := OpenIn(t)(p') - before - (if t == e.ticker then Signed(e.side, o.filled - e.applied) as real else 0.0);
      && p'.openShares >= 0
      && -1.0 <= residue <= 1.0
      && (residue != 0.0 ==> p'.ticker == t && pid in s.positions && s.positions[pid].ticker == t && s.positions[pid].openShares > 0 && p'.openShares == 0)
  {
    hide DeltaPrice, BlendedAvg, Gain;
  }

  // ---- one event -----------------------------------------------------------------

  /** Pending counts move only with the execution that is reported on. */
  lemma PendingMoves(before: map<Id, Execution>, after: map<Id, Execution>, a: map<Id, int>, a': map<Id, int>, x: Id, t: string)
    requires x in after && before.Keys + {x} == after.Keys
    requires forall y :: y in before && y != x ==> after[y] == before[y] && Applied(a', before[y].order) == Applied(a, before[y].order)
    ensures SumBy(after, PendingIn(a', t)) == SumBy(before, PendingIn(a, t)) - (if x in before then PendingIn(a, t)(before[x]) else 0.0) + PendingIn(a', t)(after[x])
  {
    hide Sum, SumBy;
    var others := before - {x};
    assert others == after - {x};
    SumByRemove(after, x, PendingIn(a', t));
    if x in before { SumByRemove(before, x, PendingIn(a, t)); } else { assert others == before; }
    SumByEqual(others, others, PendingIn(a, t), PendingIn(a', t));
  }

  /** When only one execution and its order move, and it is still not ahead, none is. */
  lemma LinksSurvive(before: map<Id, Execution>, after: map<Id, Execution>, m: MockState, m': MockState, x: Id)
    requires Lagging(before, m) && ToldApart(before)
    requires x in after && after.Keys == before.Keys + {x}
    requires forall y :: y in before && y != x ==> after[y] == before[y] && before[y].order != after[x].order
    requires forall k :: k != after[x].order ==> Applied(m'.applied, k) == Applied(m.applied, k) && (k in m'.orders <==> k in m.orders)
    requires forall k :: k in m.orders && k != after[x].order ==> m'.orders[k] == m.orders[k]
    requires 0 <= after[x].applied <= Applied(m'.applied, after[x].order)
    requires after[x].order in m'.orders ==> m'.orders[after[x].order].ticker == after[x].ticker && m'.orders[after[x].order].side == after[x].side
    ensures Lagging(after, m') && ToldApart(after)
  {
    hide Applied;
  }

  /** What a poll of a known order amounts to. */
  lemma PollFacts(sys: System, x: Id, newId: Id, sys': System)
    requires Linked(sys) && Covered(sys, Poll(x, newId)) && newId !in sys.ledger.positions && Step(sys, Poll(x, newId)) == Ok(sys')
    ensures x in sys.ledger.executions
    ensures var e := sys.ledger.executions[x]; e.order !in sys.mock.orders ==> sys' == sys
    ensures var e := sys.ledger.executions[x]; e.order in sys.mock.orders ==>
      var o := Polled(sys.mock, e.order);
      && ApplyFill(sys.ledger, x, o, newId) == Ok(sys'.ledger) && sys'.mock == AfterPoll(sys.mock, e.order)
      && (o.side == Sell ==> NewUnits(sys.mock, o) <= HeldBy(sys.mock, o.ticker))
      && sys.mock.orders[e.order].id == e.order && sys.mock.orders[e.order].filled <= Applied(sys.mock.applied, e.order)
      && o.ticker == e.ticker && o.side == e.side
      && (forall y :: y in sys.ledger.executions && y != x ==> sys.ledger.executions[y].order != e.order)
      && 0 <= e.applied <= Applied(sys.mock.applied, e.order)
    ensures forall id :: id in sys.ledger.positions ==> sys.ledger.positions[id].openShares >= 0
    ensures forall t :: t in sys.mock.holdings ==> sys.mock.holdings[t] > 0
  {
    hide ApplyFill, AfterPoll, NewUnits, HeldBy;
  }

  /** A poll keeps both sides linked. */
  lemma PollKeepsLinks(sys: System, x: Id, newId: Id, sys': System)
    requires Linked(sys) && Covered(sys, Poll(x, newId)) && newId !in sys.ledger.positions && Step(sys, Poll(x, newId)) == Ok(sys')
    ensures Linked(sys')
  {
    hide Lagging, ToldApart, Sum, SumBy, OpenTotal, ClosesOne, Step, Covered, ApplyFill, AfterPoll, Polled, WithReport, HeldBy, Applied;
    PollFacts(sys, x, newId, sys');
    var e := sys.ledger.executions[x];
    if e.order in sys.mock.orders {
      ReportMovesLedger(sys.ledger, x, Polled(sys.mock, e.order), newId, sys'.ledger, "");
      PolledMock(sys.mock, e.order, "");
      LinksSurvive(sys.ledger.executions, sys'.ledger.executions, sys.mock, sys'.mock, x);
    }
  }

  /** A poll moves the unexplained difference by at most one unit, and only by closing a position. */
  lemma PollMovesLittle(sys: System, x: Id, newId: Id, sys': System, t: string)
    requires Linked(sys) && Covered(sys, Poll(x, newId)) && newId !in sys.ledger.positions && Step(sys, Poll(x, newId)) == Ok(sys')
    ensures Abs(Unexplained(sys', t) - Unexplained(sys, t)) <= if ClosesOne(sys.ledger, sys'.ledger, t) then 1.0 else 0.0
  {
    hide Sum, SumBy, OpenTotal, ClosesOne, Step, Covered, Linked, ApplyFill, AfterPoll, Polled, WithReport, HeldBy, Applied, NewUnits;
    PollFacts(sys, x, newId, sys');
    var e := sys.ledger.executions[x];
    if e.order in sys.mock.orders {
      ReportMovesLedger(sys.ledger, x, Polled(sys.mock, e.order), newId, sys'.ledger, t);
      PolledMock(sys.mock, e.order, t);
      PendingMoves(sys.ledger.executions, sys'.ledger.executions, sys.mock.applied, sys'.mock.applied, x, t);
      var e' := sys'.ledger.executions[x];
      assert PendingIn(sys.mock.applied, t)(e) == if e.ticker == t then Signed(e.side, Applied(sys.mock.applied, e.order) - e.applied) as real else 0.0;
      assert PendingIn(sys'.mock.applied, t)(e') == if e.ticker == t then Signed(e.side, Applied(sys'.mock.applied, e.order) - e'.applied) as real else 0.0;
    }
  }

  function Abs(x: real): (size: real)
    ensures x <= size && -x <= size
  {
    if x < 0.0 then -x else x
  }

  /** A poll takes its report into the holdings and touches no other order. */
  lemma PolledMock(m: MockState, oid: Id, t: string)
    requires oid in m.orders && m.orders[oid].id == oid
    requires var o := Polled(m, oid); o.side == Sell ==> NewUnits(m, o) <= HeldBy(m, o.ticker)
    requires forall k :: k in m.holdings ==> m.holdings[k] > 0
    requires Applied(m.applied, oid) >= m.orders[oid].filled
    ensures var o := Polled(m, oid); var m' := AfterPoll(m, oid); var delta := Max(o.filled - Applied(m.applied, oid), 0);
      && HeldBy(m', t) as real == HeldBy(m, t) as real + (if t == o.ticker then Signed(o.side, delta) as real else 0.0)
      && Applied(m'.applied, oid) == Applied(m.applied, oid) + delta
      && (forall k :: k != oid ==> Applied(m'.applied, k) == Applied(m.applied, k))
      && (forall k :: k in m'.holdings ==> m'.holdings[k] > 0)
      && o.ticker == m.orders[oid].ticker && o.side == m.orders[oid].side && o.id == oid
      && m'.orders.Keys == m.orders.Keys
      && (forall k :: k in m.orders ==> m'.orders[k].ticker == m.orders[k].ticker && m'.orders[k].side == m.orders[k].side && m'.orders[k].id == m.orders[k].id)
      && Applied(m'.applied, oid) >= m'.orders[oid].filled
      && (forall k :: k in m.orders && k != oid ==> m'.orders[k] == m.orders[k])
  {
    if oid in m.polls && m.polls[oid] != [] {
      var o := Polled(m, oid);
      ReportMovesHoldings(m.(polls := m.polls[oid := m.polls[oid][1..]], orders := m.orders[oid := o]), o, t);
    }
  }

  /** The ledger once a request's order is on record, before its first fill. */
  function Recorded(sys: System, e: Event, o: Order): LedgerState
    requires e.Request?
  {
    WithExecution(WithIntent(sys.ledger, e), e.iid, o, e.eid)
  }

  /** What a first report does on the broker's side. */
  lemma SubmittedMock(m: MockState, ticker: string, side: Side, shares: int, oid: Id, t: string)
    requires oid !in m.applied && oid !in m.orders
    requires var o := Submitted(m, ticker, side, shares, oid); o.side == Sell ==> NewUnits(m, o) <= HeldBy(m, o.ticker)
    requires forall k :: k in m.holdings ==> m.holdings[k] > 0
    ensures var o := Submitted(m, ticker, side, shares, oid); var m' := AfterSubmit(m, ticker, side, shares, oid); var delta := Max(o.filled, 0);
      && HeldBy(m', t) as real == HeldBy(m, t) as real + (if t == ticker then Signed(side, delta) as real else 0.0)
      && Applied(m'.applied, oid) == delta
      && (forall k :: k != oid ==> Applied(m'.applied, k) == Applied(m.applied, k))
      && (forall k :: k in m'.holdings ==> m'.holdings[k] > 0)
      && o.ticker == ticker && o.side == side && o.id == oid && m'.orders == m.orders[oid := o]
  {
    var o := Submitted(m, ticker, side, shares, oid);
    ReportMovesHoldings(m.(orders := m.orders[oid := o], polls := m.polls[oid := NextScenario(m, shares).polls], applied := m.applied[oid := 0],
                           scenarios := if m.scenarios == [] then [] else m.scenarios[1..]), o, t);
  }

  /** What the first report of a request does on the ledger's side. */
  lemma RequestMovesLedger(sys: System, e: Event, o: Order, s': LedgerState, t: string)
    requires e.Request? && FreshIds(sys, e) && o.id == e.oid
    requires RecordExecution(WithIntent(sys.ledger, e), e.iid, o, e.eid, e.pid) == Ok(s')
    requires forall id :: id in sys.ledger.positions ==> sys.ledger.positions[id].openShares >= 0
    ensures var applied := if o.filled > EPSILON then o.filled else 0;
      && s'.executions.Keys == sys.ledger.executions.Keys + {e.eid}
      && (forall y :: y in sys.ledger.executions ==> s'.executions[y] == sys.ledger.executions[y])
      && s'.executions[e.eid].ticker == e.ticker && s'.executions[e.eid].side == e.side && s'.executions[e.eid].order == e.oid && s'.executions[e.eid].applied == applied
      && (forall id :: id in s'.positions ==> s'.positions[id].openShares >= 0)
      && var residue := OpenTotal(s'.positions, t) - OpenTotal(sys.ledger.positions, t) - (if t == e.ticker then Signed(e.side, applied) as real else 0.0);
         -1.0 <= residue <= 1.0 && (residue != 0.0 ==> ClosesOne(sys.ledger, s', t))
  {
    hide Sum, SumBy, OpenTotal;
    var recorded := Recorded(sys, e, o);
    assert recorded.positions == sys.ledger.positions;
    if o.filled > EPSILON {
      ReportMovesLedger(recorded, e.eid, o, e.pid, s', t);
      if ClosesOne(recorded, s', t) { assert ClosesOne(sys.ledger, s', t); }
    }
  }

  /** What a request that places an order amounts to. */
  lemma RequestFacts(sys: System, e: Event, sys': System)
    requires e.Request? && Linked(sys) && FreshIds(sys, e) && Covered(sys, e) && Step(sys, e) == Ok(sys')
    ensures Repeated(sys.ledger, e) ==> sys' == sys
    ensures !Repeated(sys.ledger, e) ==>
      var o := Submitted(sys.mock, e.ticker, e.side, e.shares, e.oid);
      && RecordExecution(WithIntent(sys.ledger, e), e.iid, o, e.eid, e.pid) == Ok(sys'.ledger)
      && sys'.mock == AfterSubmit(sys.mock, e.ticker, e.side, e.shares, e.oid)
      && (o.side == Sell ==> NewUnits(sys.mock, o) <= HeldBy(sys.mock, o.ticker)) && o.id == e.oid
    ensures forall id :: id in sys.ledger.positions ==> sys.ledger.positions[id].openShares >= 0
    ensures forall t :: t in sys.mock.holdings ==> sys.mock.holdings[t] > 0
  {
    hide RecordExecution, AfterSubmit, NewUnits, HeldBy;
  }

  lemma RequestKeepsLinks(sys: System, e: Event, sys': System)
    requires e.Request? && Linked(sys) && FreshIds(sys, e) && Covered(sys, e) && Step(sys, e) == Ok(sys')
    ensures Linked(sys')
  {
    hide Lagging, ToldApart, Sum, SumBy, OpenTotal, ClosesOne, RecordExecution, AfterSubmit, Submitted, HeldBy, Applied,
         WithReport, Step, Covered, Repeated, SameRequest, Unresolved;
    RequestFacts(sys, e, sys');
    if !Repeated(sys.ledger, e) {
      var o := Submitted(sys.mock, e.ticker, e.side, e.shares, e.oid);
      SubmittedMock(sys.mock, e.ticker, e.side, e.shares, e.oid, "");
      RequestMovesLedger(sys, e, o, sys'.ledger, "");
      LinksSurvive(sys.ledger.executions, sys'.ledger.executions, sys.mock, sys'.mock, e.eid);
    }
  }

  lemma RequestMovesLittle(sys: System, e: Event, sys': System, t: string)
    requires e.Request? && Linked(sys) && FreshIds(sys, e) && Covered(sys, e) && Step(sys, e) == Ok(sys')
    ensures Abs(Unexplained(sys', t) - Unexplained(sys, t)) <= if ClosesOne(sys.ledger, sys'.ledger, t) then 1.0 else 0.0
  {
    hide Sum, SumBy, OpenTotal, ClosesOne, RecordExecution, AfterSubmit, Submitted, HeldBy, Applied, WithReport, Step, Covered, Repeated, Linked;
    RequestFacts(sys, e, sys');
    if !Repeated(sys.ledger, e) {
      var o := Submitted(sys.mock, e.ticker, e.side, e.shares, e.oid);
      SubmittedMock(sys.mock, e.ticker, e.side, e.shares, e.oid, t);
      RequestMovesLedger(sys, e, o, sys'.ledger, t);
      var x := sys'.ledger.executions[e.eid];
      PendingMoves(sys.ledger.executions, sys'.ledger.executions, sys.mock.applied, sys'.mock.applied, e.eid, t);
      assert PendingIn(sys'.mock.applied, t)(x) == if x.ticker == t then Signed(x.side, Applied(sys'.mock.applied, x.order) - x.applied) as real else 0.0;
    }
  }

  // ---- whole runs ----------------------------------------------------------------

  /** The ids an event draws are new. */
  predicate Fresh(sys: System, e: Event) {
    match e
    case Request(_, _, _, _, _, _, _, _, _, _) => FreshIds(sys, e)
    case Poll(_, newId) => newId !in sys.ledger.positions
    case _ => true
  }

  /** An event whose report, if it brings one, sells no more than the broker holds. */
  ghost predicate Good(sys: System, e: Event) {
    Fresh(sys, e) && (Refused(sys, e) || Covered(sys, e))
  }

  /** The broker has answered and the ledger raises: what the broker did stays, and of the ledger at most the new execution. */
  function Failed(sys: System, e: Event): System {
    match e
    case Request(_, ticker, side, _, shares, _, _, oid, _, _) =>
      var o := Submitted(sys.mock, ticker, side, shares, oid);
      System(Recorded(sys, e, o), AfterSubmit(sys.mock, ticker, side, shares, oid))
    case Poll(x, _) =>
      if x in sys.ledger.executions && sys.ledger.executions[x].order in sys.mock.orders
      then sys.(mock := AfterPoll(sys.mock, sys.ledger.executions[x].order)) else sys
    case _ => sys
  }

  /** A refused event leaves both sides as they are. */
  ghost function Next(sys: System, e: Event): System
    requires Good(sys, e)
  {
    if Refused(sys, e) then sys
    else match Step(sys, e)
         case Ok(next) => next
         case Err(_) => Failed(sys, e)
  }

  /** A run in which no report sells more than the broker holds; the ledger may raise. */
  ghost predicate GoodRun(sys: System, events: seq<Event>)
    decreases |events|
  {
    events == [] || (Good(sys, events[0]) && GoodRun(Next(sys, events[0]), events[1..]))
  }

  ghost function After(sys: System, events: seq<Event>): System
    requires GoodRun(sys, events)
    decreases |events|
  {
    if events == [] then sys else After(Next(sys, events[0]), events[1..])
  }

  /** The events of a run in which a position of the ticker closes. */
  ghost function Closings(sys: System, events: seq<Event>, t: string): nat
    requires GoodRun(sys, events)
    decreases |events|
  {
    if events == [] then 0
    else
      var next := Next(sys, events[0]);
      (if ClosesOne(sys.ledger, next.ledger, t) then 1 else 0) + Closings(next, events[1..], t)
  }

  lemma ScriptMovesNothing(sys: System, e: Event, t: string)
    requires e.Script? && Linked(sys)
    ensures Linked(Step(sys, e).value) && Unexplained(Step(sys, e).value, t) == Unexplained(sys, t)
  {
    hide Sum, SumBy;
  }

  /** A reconcile rewrites flags and blocks, and moves no unit. */
  lemma ReconcileMovesNothing(sys: System, t: string)
    requires Linked(sys)
    ensures var next := Step(sys, Reconcile).value; Linked(next) && Unexplained(next, t) == Unexplained(sys, t)
  {
    hide Sum, SumBy, Mismatched, Listed;
    SumByEqual(sys.ledger.positions, Step(sys, Reconcile).value.ledger.positions, OpenIn(t), OpenIn(t));
  }

  /** A report the ledger does not book only becomes pending. */
  lemma FailedPollMovesNothing(sys: System, x: Id, newId: Id, t: string)
    requires Linked(sys) && Covered(sys, Poll(x, newId)) && x in sys.ledger.executions && Step(sys, Poll(x, newId)).Err?
    ensures Linked(Failed(sys, Poll(x, newId))) && Unexplained(Failed(sys, Poll(x, newId)), t) == Unexplained(sys, t)
  {
    hide Sum, SumBy, OpenTotal, ApplyFill, AfterPoll, Polled, HeldBy, Applied, NewUnits;
    var e, next := sys.ledger.executions[x], Failed(sys, Poll(x, newId));
    PolledOrder(sys, x, newId);
    PolledMock(sys.mock, e.order, t);
    LinksSurvive(sys.ledger.executions, sys.ledger.executions, sys.mock, next.mock, x);
    PendingMoves(sys.ledger.executions, sys.ledger.executions, sys.mock.applied, next.mock.applied, x, t);
    PendingOne(sys.mock.applied, e, t);
    PendingOne(next.mock.applied, e, t);
  }

  lemma PendingOne(applied: map<Id, int>, e: Execution, t: string)
    ensures PendingIn(applied, t)(e) == if e.ticker == t then Signed(e.side, Applied(applied, e.order) - e.applied) as real else 0.0
  {
  }

  lemma PolledOrder(sys: System, x: Id, newId: Id)
    requires Linked(sys) && Covered(sys, Poll(x, newId)) && x in sys.ledger.executions && sys.ledger.executions[x].order in sys.mock.orders
    ensures var e := sys.ledger.executions[x]; var o := Polled(sys.mock, e.order);
      && (o.side == Sell ==> NewUnits(sys.mock, o) <= HeldBy(sys.mock, o.ticker))
      && sys.mock.orders[e.order].id == e.order && sys.mock.orders[e.order].filled <= Applied(sys.mock.applied, e.order)
      && o.ticker == e.ticker && o.side == e.side
      && (forall y :: y in sys.ledger.executions && y != x ==> sys.ledger.executions[y].order != e.order)
  {
    hide NewUnits, HeldBy;
  }

  lemma FailedRequestMovesNothing(sys: System, e: Event, t: string)
    requires e.Request? && Linked(sys) && FreshIds(sys, e) && Covered(sys, e) && !Repeated(sys.ledger, e)
    ensures Linked(Failed(sys, e)) && Unexplained(Failed(sys, e), t) == Unexplained(sys, t)
  {
    hide Sum, SumBy, OpenTotal, AfterSubmit, Submitted, HeldBy, Applied, NewUnits;
    var next, o := Failed(sys, e), Submitted(sys.mock, e.ticker, e.side, e.shares, e.oid);
    SubmittedIsNamed(sys.mock, e.ticker, e.side, e.shares, e.oid);
    SubmittedMock(sys.mock, e.ticker, e.side, e.shares, e.oid, t);
    LinksSurvive(sys.ledger.executions, next.ledger.executions, sys.mock, next.mock, e.eid);
    PendingMoves(sys.ledger.executions, next.ledger.executions, sys.mock.applied, next.mock.applied, e.eid, t);
    PendingOne(next.mock.applied, next.ledger.executions[e.eid], t);
  }

  lemma SubmittedIsNamed(m: MockState, ticker: string, side: Side, shares: int, oid: Id)
    ensures var o := Submitted(m, ticker, side, shares, oid); o.id == oid && o.ticker == ticker && o.side == side
  {
  }

  lemma StepMovesLittle(sys: System, e: Event, t: string)
    requires Linked(sys) && Good(sys, e)
    ensures Linked(Next(sys, e))
    ensures Abs(Unexplained(Next(sys, e), t) - Unexplained(sys, t)) <= if ClosesOne(sys.ledger, Next(sys, e).ledger, t) then 1.0 else 0.0
  {
    hide Linked, Unexplained, ClosesOne, Covered, RecordExecution, ApplyFill, FreshIds, Reconciled, Failed, AfterSubmit, AfterPoll;
    var next := Next(sys, e);
    if !Refused(sys, e) {
      match e
      case Script(_) => ScriptMovesNothing(sys, e, t);
      case Reconcile => ReconcileMovesNothing(sys, t);
      case Request(_, _, _, _, _, _, _, _, _, _) =>
        if Step(sys, e).Ok? {
          RequestKeepsLinks(sys, e, next);
          RequestMovesLittle(sys, e, next, t);
        } else {
          FailedRequestMovesNothing(sys, e, t);
        }
      case Poll(x, newId) =>
        if Step(sys, e).Ok? {
          PollKeepsLinks(sys, x, newId, next);
          PollMovesLittle(sys, x, newId, next, t);
        } else {
          FailedPollMovesNothing(sys, x, newId, t);
        }
    }
  }

  lemma {:induction false} RunMovesLittle(sys: System, events: seq<Event>, t: string)
    requires Linked(sys) && GoodRun(sys, events)
    ensures Linked(After(sys, events))
    ensures Abs(Unexplained(After(sys, events), t) - Unexplained(sys, t)) <= Closings(sys, events, t) as real
    decreases |events|
  {
    hide Linked, Unexplained, ClosesOne, Next, Good;
    if events != [] {
      StepMovesLittle(sys, events[0], t);
      RunMovesLittle(Next(sys, events[0]), events[1..], t);
    }
  }

  /** Each execution is at most one unit behind, so together they are behind by at most their number. */
  lemma {:induction false} PendingIsSmall(executions: map<Id, Execution>, applied: map<Id, int>, t: string)
    requires forall x :: x in executions ==> executions[x].applied <= Applied(applied, executions[x].order) <= executions[x].applied + 1
    ensures Abs(SumBy(executions, PendingIn(applied, t))) <= SumBy(executions, IsIn(t))
    decreases |executions|
  {
    hide Sum, SumBy;
    if x :| x in executions {
      PendingIsSmall(executions - {x}, applied, t);
      SumByRemove(executions, x, PendingIn(applied, t));
      SumByRemove(executions, x, IsIn(t));
      OneIsSmall(executions[x], applied, t);
    } else {
      SumByEmpty(executions, PendingIn(applied, t));
      SumByEmpty(executions, IsIn(t));
    }
  }

  lemma OneIsSmall(e: Execution, applied: map<Id, int>, t: string)
    requires e.applied <= Applied(applied, e.order) <= e.applied + 1
    ensures Abs(PendingIn(applied, t)(e)) <= IsIn(t)(e)
  {
  }

  /** The executions in a ticker. */
  function ExecutionIds(executions: map<Id, Execution>, t: string): set<Id> {
    set x | x in executions && executions[x].ticker == t
  }

  lemma {:induction false} CountOfExecutions(executions: map<Id, Execution>, t: string)
    ensures SumBy(executions, IsIn(t)) == |ExecutionIds(executions, t)| as real
    decreases |executions|
  {
    hide Sum, SumBy, ExecutionIds, IsIn;
    if x :| x in executions {
      CountOfExecutions(executions - {x}, t);
      SumByRemove(executions, x, IsIn(t));
      IdsWithout(executions, x, t);
    } else {
      SumByEmpty(executions, IsIn(t));
      NoIds(executions, t);
    }
  }

  lemma IdsWithout(executions: map<Id, Execution>, x: Id, t: string)
    requires x in executions
    ensures |ExecutionIds(executions, t)| == |ExecutionIds(executions - {x}, t)| + if executions[x].ticker == t then 1 else 0
    ensures IsIn(t)(executions[x]) == if executions[x].ticker == t then 1.0 else 0.0
  {
    var rest := executions - {x};
    assert ExecutionIds(executions, t) == ExecutionIds(rest, t) + if executions[x].ticker == t then {x} else {};
    assert x !in ExecutionIds(rest, t);
  }

  lemma NoIds(executions: map<Id, Execution>, t: string)
    requires executions == map[]
    ensures ExecutionIds(executions, t) == {}
  {
  }

  /** Every execution is polled to its order's latest fill, up to one unit. */
  ghost predicate CaughtUp(sys: System) {
    forall x :: x in sys.ledger.executions ==> Applied(sys.mock.applied, sys.ledger.executions[x].order) <= sys.ledger.executions[x].applied + 1
  }

  /** Executions that are caught up explain all but the unexplained difference, up to one unit each. */
  lemma LinkedDrift(sys: System, t: string)
    requires Linked(sys) && CaughtUp(sys)
    ensures Abs(HeldBy(sys.mock, t) as real - OpenTotal(sys.ledger.positions, t) - Unexplained(sys, t))
              <= |ExecutionIds(sys.ledger.executions, t)| as real
  {
    hide Sum, SumBy, OpenTotal, HeldBy;
    PendingIsSmall(sys.ledger.executions, sys.mock.applied, t);
    CountOfExecutions(sys.ledger.executions, t);
  }

  lemma LinkedIsNotShort(sys: System)
    requires Linked(sys)
    ensures forall id :: id in sys.ledger.positions ==> sys.ledger.positions[id].openShares >= 0
  {
    hide Lagging, ToldApart, Consistent;
  }

  lemma StartsLinked(t: string)
    ensures Linked(Start) && Unexplained(Start, t) == 0.0
  {
    SumByEmpty(EmptyLedger.positions, OpenIn(t));
    SumByEmpty(EmptyLedger.executions, PendingIn(EmptyMock.applied, t));
  }

  /** Bounded drift: after any run in which nothing was oversold no position is short; and if every execution is polled to its
      latest fill by then, ledger and broker differ in a ticker by at most one unit per execution plus one per closing of a
      position, whatever the ledger raised on the way. */
  lemma DriftIsBounded(events: seq<Event>, t: string)
    requires GoodRun(Start, events)
    ensures var end := After(Start, events);
      && (forall id :: id in end.ledger.positions ==> end.ledger.positions[id].openShares >= 0)
      && (CaughtUp(end) ==>
            Abs(HeldBy(end.mock, t) as real - OpenTotal(end.ledger.positions, t))
              <= |ExecutionIds(end.ledger.executions, t)| as real + Closings(Start, events, t) as real)
  {
    hide Linked, Unexplained, OpenTotal, HeldBy, Closings, After, GoodRun, CaughtUp;
    StartsLinked(t);
    RunMovesLittle(Start, events, t);
    LinkedIsNotShort(After(Start, events));
    if CaughtUp(After(Start, events)) { LinkedDrift(After(Start, events), t); }
  }

  // ---- blocked tickers -----------------------------------------------------------

  /** A reconcile lets a ticker go only if one side lists it and both agree. */
  ghost predicate Releases(sys: System, e: Event, t: string) {
    e.Reconcile? && t in Listed(sys.ledger.positions, sys.mock.holdings) && Agrees(sys.ledger.positions, sys.mock.holdings, t)
  }

  lemma OnlyReconcileReleases(sys: System, e: Event, t: string)
    requires Good(sys, e) && t in sys.ledger.blocked
    ensures t in Next(sys, e).ledger.blocked || Releases(sys, e, t)
  {
    hide Listed, Agrees, Submitted, AfterSubmit, AfterPoll, FillComplaint;
  }

  /** Over any run a blocked ticker stays blocked until a reconcile that finds it listed and in agreement. */
  lemma {:induction false} BlockedUntilReleased(sys: System, events: seq<Event>, t: string)
    requires GoodRun(sys, events) && t in sys.ledger.blocked
    ensures t in After(sys, events).ledger.blocked ||
            exists i :: 0 <= i < |events| && GoodRun(sys, events[..i]) && Releases(After(sys, events[..i]), events[i], t)
    decreases |events|
  {
    hide Good, Next, Releases;
    if events != [] {
      var next, rest := Next(sys, events[0]), events[1..];
      OnlyReconcileReleases(sys, events[0], t);
      if Releases(sys, events[0], t) {
        assert events[..0] == [];
        assert Releases(After(sys, events[..0]), events[0], t);
      } else {
        BlockedUntilReleased(next, rest, t);
        if i :| 0 <= i < |rest| && GoodRun(next, rest[..i]) && Releases(After(next, rest[..i]), rest[i], t) {
          assert events[..i + 1][0] == events[0] && events[..i + 1][1..] == rest[..i];
          assert GoodRun(sys, events[..i + 1]) && Releases(After(sys, events[..i + 1]), events[i + 1], t);
        }
      }
    }
  }

  /** A blocked ticker that neither side lists, and none of whose orders has anything left to book. */
  ghost predicate SoldOut(sys: System, t: string) {
    && t in sys.ledger.blocked && HeldBy(sys.mock, t) <= EPSILON
    && (forall id :: id in sys.ledger.positions && sys.ledger.positions[id].ticker == t ==> !Active(sys.ledger.positions[id]))
    && (forall x :: x in sys.ledger.executions && sys.ledger.executions[x].ticker == t ==> Finished(sys.mock, sys.ledger.executions[x]))
  }

  /** The order has no report left that would be booked. */
  predicate Finished(m: MockState, e: Execution) {
    e.order in m.orders ==> (e.order !in m.polls || m.polls[e.order] == []) && m.orders[e.order].filled - e.applied <= EPSILON
  }

  /** Booking a report leaves positions and executions of other tickers alone. */
  lemma FillSparesOthers(s: LedgerState, x: Id, o: Order, newId: Id, s': LedgerState, t: string)
    requires x in s.executions && ApplyFill(s, x, o, newId) == Ok(s') && newId !in s.positions
    requires s.executions[x].ticker != t || o.filled - s.executions[x].applied <= EPSILON
    ensures s'.blocked == s.blocked && s'.executions.Keys == s.executions.Keys
    ensures s'.executions[x].ticker == s.executions[x].ticker && s'.executions[x].order == s.executions[x].order
    ensures s.executions[x].ticker == t ==> s'.executions[x].applied == s.executions[x].applied
    ensures forall y :: y in s.executions && y != x ==> s'.executions[y] == s.executions[y]
    ensures forall id :: id in s'.positions && s'.positions[id].ticker == t ==> id in s.positions && s'.positions[id] == s.positions[id]
  {
    hide DeltaPrice, BlendedAvg, Gain;
  }

  /** A request in a blocked ticker is refused, and the rest does not touch it. */
  lemma RequestLeavesSoldOut(sys: System, e: Event, t: string)
    requires e.Request? && Linked(sys) && SoldOut(sys, t) && FreshIds(sys, e) && !Refused(sys, e) && Covered(sys, e)
    ensures SoldOut(Next(sys, e), t)
  {
    hide Linked, Sum, SumBy, RecordExecution, ApplyFill, AfterSubmit, Submitted, HeldBy, Covered, Repeated, NewUnits;
    if !Repeated(sys.ledger, e) {
      var o := Submitted(sys.mock, e.ticker, e.side, e.shares, e.oid);
      SubmittedIsNamed(sys.mock, e.ticker, e.side, e.shares, e.oid);
      CoveredRequest(sys, e);
      SubmittedMock(sys.mock, e.ticker, e.side, e.shares, e.oid, t);
      var next := Next(sys, e);
      RecordSparesOthers(sys, e, o, next.ledger, t);
      SubmitSparesPolls(sys.mock, e.ticker, e.side, e.shares, e.oid);
    }
  }

  lemma CoveredRequest(sys: System, e: Event)
    requires e.Request? && Linked(sys) && Covered(sys, e) && !Repeated(sys.ledger, e)
    ensures var o := Submitted(sys.mock, e.ticker, e.side, e.shares, e.oid); o.side == Sell ==> NewUnits(sys.mock, o) <= HeldBy(sys.mock, o.ticker)
    ensures forall k :: k in sys.mock.holdings ==> sys.mock.holdings[k] > 0
  {
    hide Lagging, ToldApart, NewUnits, HeldBy, Submitted;
  }

  lemma RecordSparesOthers(sys: System, e: Event, o: Order, s': LedgerState, t: string)
    requires e.Request? && FreshIds(sys, e) && e.ticker != t
    requires var recorded := RecordExecution(WithIntent(sys.ledger, e), e.iid, o, e.eid, e.pid);
      s' == if recorded.Ok? then recorded.value else Recorded(sys, e, o)
    ensures s'.blocked == sys.ledger.blocked && s'.executions.Keys == sys.ledger.executions.Keys + {e.eid} && s'.executions[e.eid].ticker == e.ticker
    ensures forall y :: y in sys.ledger.executions ==> s'.executions[y] == sys.ledger.executions[y]
    ensures forall id :: id in s'.positions && s'.positions[id].ticker == t ==> id in sys.ledger.positions && s'.positions[id] == sys.ledger.positions[id]
  {
    hide ApplyFill;
    var recorded, r := Recorded(sys, e, o), RecordExecution(WithIntent(sys.ledger, e), e.iid, o, e.eid, e.pid);
    if o.filled > EPSILON && r.Ok? { FillSparesOthers(recorded, e.eid, o, e.pid, r.value, t); }
  }

  lemma SubmitSparesPolls(m: MockState, ticker: string, side: Side, shares: int, oid: Id)
    ensures var m' := AfterSubmit(m, ticker, side, shares, oid);
      forall k :: k != oid ==> (k in m'.polls <==> k in m.polls) && (k in m.polls ==> m'.polls[k] == m.polls[k])
  {
  }

  lemma PollLeavesSoldOut(sys: System, x: Id, newId: Id, t: string)
    requires Linked(sys) && SoldOut(sys, t) && newId !in sys.ledger.positions && Covered(sys, Poll(x, newId)) && x in sys.ledger.executions
    ensures SoldOut(Next(sys, Poll(x, newId)), t)
  {
    hide Linked, Sum, SumBy, ApplyFill, AfterPoll, Polled, HeldBy, Covered, NewUnits;
    var e := sys.ledger.executions[x];
    if e.order in sys.mock.orders {
      HoldingsArePositive(sys);
      PolledOrder(sys, x, newId);
      PolledMock(sys.mock, e.order, t);
      FinishedPollsNothing(sys.mock, e);
      PollSparesPolls(sys.mock, e.order);
      var r := ApplyFill(sys.ledger, x, Polled(sys.mock, e.order), newId);
      if r.Ok? {
        FillSparesOthers(sys.ledger, x, Polled(sys.mock, e.order), newId, r.value, t);
      } else {
        SmallReportPasses(sys.ledger, x, Polled(sys.mock, e.order), newId);
      }
    }
  }

  lemma HoldingsArePositive(sys: System)
    requires Linked(sys)
    ensures forall k :: k in sys.mock.holdings ==> sys.mock.holdings[k] > 0
  {
  }

  lemma SmallReportPasses(s: LedgerState, x: Id, o: Order, newId: Id)
    requires x in s.executions && ApplyFill(s, x, o, newId).Err?
    ensures o.filled - s.executions[x].applied > EPSILON
  {
  }

  lemma FinishedPollsNothing(m: MockState, e: Execution)
    requires e.order in m.orders
    ensures Finished(m, e) ==> Polled(m, e.order) == m.orders[e.order] && AfterPoll(m, e.order) == m && Polled(m, e.order).filled - e.applied <= EPSILON
  {
  }

  lemma PollSparesPolls(m: MockState, oid: Id)
    requires oid in m.orders
    ensures forall k :: k != oid ==> (k in AfterPoll(m, oid).polls <==> k in m.polls) && (k in m.polls ==> AfterPoll(m, oid).polls[k] == m.polls[k])
  {
  }

  lemma ReconcileLeavesSoldOut(sys: System, t: string)
    requires SoldOut(sys, t)
    ensures SoldOut(Step(sys, Reconcile).value, t)
  {
    hide Agrees, ActiveTickers;
    TickersOfActive(sys.ledger.positions, t);
    assert t !in Listed(sys.ledger.positions, sys.mock.holdings);
  }

  lemma TickersOfActive(positions: map<Id, Position>, t: string)
    ensures t in ActiveTickers(positions) <==> exists id :: id in positions && positions[id].ticker == t && Active(positions[id])
  {
  }

  lemma EventLeavesSoldOut(sys: System, e: Event, t: string)
    requires Linked(sys) && SoldOut(sys, t) && Good(sys, e)
    ensures SoldOut(Next(sys, e), t)
  {
    hide Linked, Covered, FreshIds, SoldOut, RecordExecution, ApplyFill, AfterSubmit, AfterPoll, Reconciled;
    if !Refused(sys, e) {
      match e
      case Script(_) => ScriptLeavesSoldOut(sys, e, t);
      case Reconcile => ReconcileLeavesSoldOut(sys, t);
      case Request(_, _, _, _, _, _, _, _, _, _) => RequestLeavesSoldOut(sys, e, t);
      case Poll(x, newId) => PollLeavesSoldOut(sys, x, newId, t);
    }
  }

  lemma ScriptLeavesSoldOut(sys: System, e: Event, t: string)
    requires e.Script? && SoldOut(sys, t)
    ensures SoldOut(Step(sys, e).value, t)
  {
  }

  /** Once a blocked ticker is sold out on both sides it can never be traded again: whatever happens, it stays so, and every
      request in it is refused. */
  lemma {:induction false} SoldOutForGood(sys: System, events: seq<Event>, t: string)
    requires Linked(sys) && SoldOut(sys, t) && GoodRun(sys, events)
    ensures SoldOut(After(sys, events), t)
    ensures forall e: Event :: e.Request? && e.ticker == t ==> Refused(After(sys, events), e)
    decreases |events|
  {
    hide Linked, Next, Good, HeldBy, Finished;
    if events != [] {
      StepMovesLittle(sys, events[0], t);
      EventLeavesSoldOut(sys, events[0], t);
      SoldOutForGood(Next(sys, events[0]), events[1..], t);
    }
  }

  // ---- a ticker that is sold out for good ----------------------------------------

  function Holder(k: nat): string { if k % 2 == 0 then "A" else "B" }

  function SideOf(k: nat): Side { if k < 2 then Buy else Sell }

  /** Two buys of three units, one for each of two entities, then two sales of them. */
  function Order3(k: nat): Event
    requires k < 4
  {
    Request(Holder(k), "T", SideOf(k), if k < 2 then "entry" else "exit", 3, if k < 2 then None else Some(k - 2), k, k, k, k)
  }

  /** A sale that fills one unit at first and the rest at the next poll. */
  function SlowSale(): Scenario { Scenario(Partial, Some(1), 100.0, [PollSpec(Some(Filled), Some(3), None)]) }

  /** Where the run stands: open units of the positions, and for each order so far the units the ledger applied, the units reported,
      and the polls to come. */
  datatype Progress = Progress(open: seq<int>, applied: seq<int>, reported: seq<int>, polls: seq<seq<PollSpec>>, held: int, blocked: set<string>, scripts: nat)

  ghost predicate AreFirst(ids: set<Id>, n: nat) { forall x: Id :: x in ids <==> x < n }

  /** Execution and intent of the x-th order. */
  predicate LedgerHas(s: LedgerState, x: Id, applied: int) {
    && x in s.executions && x in s.intents && s.intents[x].entity == Holder(x) && s.intents[x].side == SideOf(x)
    && var e := s.executions[x];
       e.order == x && e.ticker == "T" && e.side == SideOf(x) && e.entity == Holder(x) && e.position == Some(x % 2) && e.intent == x && e.applied == applied
  }

  predicate Holds(s: LedgerState, k: Id, open: int) {
    k in s.positions && s.positions[k].ticker == "T" && s.positions[k].entity == Holder(k) && s.positions[k].openShares == open
  }

  predicate MockHas(m: MockState, x: Id, reported: int, polls: seq<PollSpec>) {
    && x in m.orders && x in m.applied && x in m.polls && m.applied[x] == reported && m.polls[x] == polls
    && var o := m.orders[x]; o.id == x && o.ticker == "T" && o.side == SideOf(x) && o.filled == reported && o.avg == 100.0
  }

  predicate HoldsUnits(m: MockState, held: int) { held >= 0 && m.holdings == if held > 0 then map["T" := held] else map[] }

  ghost predicate LedgerAt(s: LedgerState, b: Progress) {
    && s.blocked == b.blocked
    && AreFirst(s.executions.Keys, |b.applied|) && AreFirst(s.intents.Keys, |b.applied|) && AreFirst(s.positions.Keys, |b.open|)
    && (forall x: Id :: x < |b.applied| ==> LedgerHas(s, x, b.applied[x])) && (forall k: Id :: k < |b.open| ==> Holds(s, k, b.open[k]))
  }

  ghost predicate MockAt(m: MockState, b: Progress) {
    && |b.reported| == |b.polls| && m.scenarios == seq(b.scripts, _ => SlowSale()) && HoldsUnits(m, b.held)
    && AreFirst(m.orders.Keys, |b.reported|) && AreFirst(m.applied.Keys, |b.reported|) && AreFirst(m.polls.Keys, |b.reported|)
    && forall x: Id :: x < |b.reported| ==> MockHas(m, x, b.reported[x], b.polls[x])
  }

  ghost predicate StandsAt(sys: System, b: Progress) { |b.applied| == |b.reported| && LedgerAt(sys.ledger, b) && MockAt(sys.mock, b) }

  lemma StartStands()
    ensures StandsAt(Start, Progress([], [], [], [], 0, {}, 0))
  {
  }

  // The ledger's side of the three kinds of event.

  lemma PriceIsPositive(e: Execution, o: Order)
    requires o.filled > e.applied && o.avg == 100.0
    ensures DeltaPrice(e, o) > 0.0
  {
    hide SplitPrice;
  }

  lemma BuyInLedger(sys: System, n: nat, o: Order)
    requires n < 2 && FreshIds(sys, Order3(n)) && o.id == n && o.filled == 3 && o.avg == 100.0
    ensures var e := Order3(n); var r := RecordExecution(WithIntent(sys.ledger, e), n, o, n, n);
      && r.Ok? && LedgerHas(r.value, n, 3) && Holds(r.value, n, 3) && r.value.blocked == sys.ledger.blocked
      && r.value.executions == sys.ledger.executions[n := r.value.executions[n]] && r.value.intents == sys.ledger.intents[n := r.value.intents[n]]
      && r.value.positions == sys.ledger.positions[n := r.value.positions[n]]
  {
    hide DeltaPrice, BlendedAvg;
    var e := Order3(n);
    PriceIsPositive(NewExecution(WithIntent(sys.ledger, e).intents[n], n, o), o);
  }

  lemma SaleInLedger(sys: System, n: nat, o: Order)
    requires 2 <= n < 4 && FreshIds(sys, Order3(n)) && o.id == n && o.filled == 1
    ensures var e := Order3(n); var r := RecordExecution(WithIntent(sys.ledger, e), n, o, n, n);
      && r.Ok? && LedgerHas(r.value, n, 0) && r.value.blocked == sys.ledger.blocked && r.value.positions == sys.ledger.positions
      && r.value.executions == sys.ledger.executions[n := r.value.executions[n]] && r.value.intents == sys.ledger.intents[n := r.value.intents[n]]
  {
  }

  lemma PollInLedger(s: LedgerState, x: nat, o: Order)
    requires 2 <= x < 4 && LedgerHas(s, x, 0) && Holds(s, x - 2, 3) && o.filled == 3 && o.avg == 100.0
    ensures var r := ApplyFill(s, x, o, 4);
      && r.Ok? && LedgerHas(r.value, x, 3) && Holds(r.value, x - 2, 0) && r.value.blocked == s.blocked
      && r.value.executions == s.executions[x := r.value.executions[x]] && r.value.intents == s.intents[x := r.value.intents[x]]
      && r.value.positions == s.positions[x - 2 := r.value.positions[x - 2]]
  {
    hide DeltaPrice, Gain;
    PriceIsPositive(s.executions[x], o);
  }

  // The broker's side.

  lemma SubmitInMock(m: MockState, n: nat, held: int)
    requires n < 4 && n !in m.orders && HoldsUnits(m, held)
    requires if n < 2 then m.scenarios == [] else m.scenarios != [] && m.scenarios[0] == SlowSale() && held > 1
    ensures var o, m' := Submitted(m, "T", SideOf(n), 3, n), AfterSubmit(m, "T", SideOf(n), 3, n);
      var filled := if n < 2 then 3 else 1;
      && o.id == n && o.filled == filled && o.avg == 100.0 && o.side == SideOf(n) && o.ticker == "T"
      && MockHas(m', n, filled, if n < 2 then [] else SlowSale().polls) && HoldsUnits(m', if n < 2 then held + 3 else held - 1)
      && m'.orders == m.orders[n := o] && m'.applied == m.applied[n := filled] && m'.polls == m.polls[n := m'.polls[n]]
      && m'.scenarios == if n < 2 then [] else m.scenarios[1..]
  {
  }

  lemma PollInMock(m: MockState, x: nat, held: int)
    requires 2 <= x < 4 && MockHas(m, x, 1, SlowSale().polls) && HoldsUnits(m, held) && held >= 2
    ensures var o, m' := Polled(m, x), AfterPoll(m, x);
      && o.id == x && o.filled == 3 && o.avg == 100.0 && o.side == Sell && o.ticker == "T"
      && MockHas(m', x, 3, []) && HoldsUnits(m', held - 2) && m'.scenarios == m.scenarios
      && m'.orders == m.orders[x := o] && m'.applied == m.applied[x := 3] && m'.polls == m.polls[x := []]
  {
    assert SlowSale().polls[1..] == [];
  }

  // Both sides.

  lemma OrderIsNew(sys: System, b: Progress)
    requires StandsAt(sys, b) && b.blocked == {} && |b.applied| < 4 && |b.open| == Min(|b.applied|, 2)
    ensures var e := Order3(|b.applied|); FreshIds(sys, e) && !Refused(sys, e) && !Repeated(sys.ledger, e)
  {
    hide MockHas, HoldsUnits, SlowSale, Holds;
    var n := |b.applied|;
    forall i | i in sys.ledger.intents ensures i < n && sys.ledger.intents[i].entity == Holder(i) && sys.ledger.intents[i].side == SideOf(i) {
      assert LedgerHas(sys.ledger, i, b.applied[i]);
    }
    forall x | x in sys.ledger.executions ensures sys.ledger.executions[x].order != n {
      assert LedgerHas(sys.ledger, x, b.applied[x]);
    }
  }

  lemma LedgerHasStill(s: LedgerState, s': LedgerState, x: Id, applied: int)
    requires LedgerHas(s, x, applied) && x in s'.executions && x in s'.intents && s'.executions[x] == s.executions[x] && s'.intents[x] == s.intents[x]
    ensures LedgerHas(s', x, applied)
  {
  }

  lemma MockHasStill(m: MockState, m': MockState, x: Id, reported: int, polls: seq<PollSpec>)
    requires MockHas(m, x, reported, polls) && x in m'.orders && x in m'.applied && x in m'.polls
    requires m'.orders[x] == m.orders[x] && m'.applied[x] == m.applied[x] && m'.polls[x] == m.polls[x]
    ensures MockHas(m', x, reported, polls)
  {
  }

  lemma HoldsStill(s: LedgerState, s': LedgerState, k: Id, open: int)
    requires Holds(s, k, open) && k in s'.positions && s'.positions[k] == s.positions[k]
    ensures Holds(s', k, open)
  {
  }

  /** One order more, and one position more when it is a buy. */
  lemma LedgerMovesOn(s: LedgerState, s': LedgerState, b: Progress, b': Progress)
    requires LedgerAt(s, b) && |b'.applied| == |b.applied| + 1 && b'.applied[..|b.applied|] == b.applied && b'.blocked == b.blocked == s'.blocked
    requires b'.open == b.open || (|b'.open| == |b.open| + 1 && b'.open[..|b.open|] == b.open)
    requires var n := |b.applied|; s'.executions.Keys == s.executions.Keys + {n} && s'.intents.Keys == s.intents.Keys + {n} && LedgerHas(s', n, b'.applied[n])
    requires forall x :: x in s.executions ==> s'.executions[x] == s.executions[x]
    requires forall x :: x in s.intents ==> s'.intents[x] == s.intents[x]
    requires forall k :: k in s.positions ==> k in s'.positions && s'.positions[k] == s.positions[k]
    requires if b'.open == b.open then s'.positions == s.positions
             else var n := |b.open|; s'.positions.Keys == s.positions.Keys + {n} && Holds(s', n, b'.open[n])
    ensures LedgerAt(s', b')
  {
    hide LedgerHas, Holds;
    forall x: Id | x < |b.applied| ensures LedgerHas(s', x, b'.applied[x]) {
      assert b'.applied[x] == b.applied[x];
      LedgerHasStill(s, s', x, b.applied[x]);
    }
    forall k: Id | k < |b.open| ensures Holds(s', k, b'.open[k]) {
      assert b'.open[k] == b.open[k];
      HoldsStill(s, s', k, b.open[k]);
    }
  }

  lemma MockMovesOn(m: MockState, m': MockState, b: Progress, b': Progress)
    requires MockAt(m, b) && |b'.reported| == |b'.polls| == |b.reported| + 1 && b'.reported[..|b.reported|] == b.reported && b'.polls[..|b.polls|] == b.polls
    requires var n := |b.reported|;
      && m'.orders.Keys == m.orders.Keys + {n} && m'.applied.Keys == m.applied.Keys + {n} && m'.polls.Keys == m.polls.Keys + {n}
      && MockHas(m', n, b'.reported[n], b'.polls[n])
    requires forall x :: x in m.orders ==> m'.orders[x] == m.orders[x]
    requires forall x :: x in m.applied ==> m'.applied[x] == m.applied[x]
    requires forall x :: x in m.polls ==> m'.polls[x] == m.polls[x]
    requires HoldsUnits(m', b'.held) && m'.scenarios == seq(b'.scripts, _ => SlowSale())
    ensures MockAt(m', b')
  {
    hide MockHas, HoldsUnits, SlowSale;
    forall x: Id | x < |b.reported| ensures MockHas(m', x, b'.reported[x], b'.polls[x]) {
      assert b'.reported[x] == b.reported[x] && b'.polls[x] == b.polls[x];
      MockHasStill(m, m', x, b.reported[x], b.polls[x]);
    }
  }

  function AfterOrder(b: Progress): Progress {
    if |b.applied| < 2 then Progress(b.open + [3], b.applied + [3], b.reported + [3], b.polls + [[]], b.held + 3, {}, 0)
    else b.(applied := b.applied + [0], reported := b.reported + [1], polls := b.polls + [SlowSale().polls], held := b.held - 1,
            scripts := Max(b.scripts - 1, 0))
  }

  lemma OrderInMock(m: MockState, b: Progress)
    requires MockAt(m, b) && |b.reported| == |b.applied| < 4 && b.held >= 0
    requires if |b.applied| < 2 then b.scripts == 0 else b.scripts > 0 && b.held > 1
    ensures var n := |b.applied|; MockAt(AfterSubmit(m, "T", SideOf(n), 3, n), AfterOrder(b))
  {
    hide MockHas, HoldsUnits, SlowSale, Submitted, AfterSubmit;
    var n := |b.applied|;
    assert n >= 2 ==> m.scenarios[0] == SlowSale() && m.scenarios[1..] == seq(b.scripts - 1, _ => SlowSale());
    SubmitInMock(m, n, b.held);
    MockMovesOn(m, AfterSubmit(m, "T", SideOf(n), 3, n), b, AfterOrder(b));
  }

  lemma BuyMovesLedger(sys: System, b: Progress, o: Order)
    requires LedgerAt(sys.ledger, b) && b.blocked == {} && |b.open| == |b.applied| < 2 && FreshIds(sys, Order3(|b.applied|))
    requires o.id == |b.applied| && o.filled == 3 && o.avg == 100.0
    ensures var n := |b.applied|; var r := RecordExecution(WithIntent(sys.ledger, Order3(n)), n, o, n, n);
      r.Ok? && LedgerAt(r.value, AfterOrder(b))
  {
    hide LedgerHas, Holds, RecordExecution, SlowSale, LedgerAt;
    var n := |b.applied|;
    BuyInLedger(sys, n, o);
    NotBlocked(sys.ledger, b);
    LedgerMovesOn(sys.ledger, RecordExecution(WithIntent(sys.ledger, Order3(n)), n, o, n, n).value, b, AfterOrder(b));
  }

  lemma SaleMovesLedger(sys: System, b: Progress, o: Order)
    requires LedgerAt(sys.ledger, b) && b.blocked == {} && |b.open| == 2 <= |b.applied| < 4 && FreshIds(sys, Order3(|b.applied|))
    requires o.id == |b.applied| && o.filled == 1
    ensures var n := |b.applied|; var r := RecordExecution(WithIntent(sys.ledger, Order3(n)), n, o, n, n);
      r.Ok? && LedgerAt(r.value, AfterOrder(b))
  {
    hide LedgerHas, Holds, RecordExecution, SlowSale, LedgerAt;
    var n := |b.applied|;
    SaleInLedger(sys, n, o);
    NotBlocked(sys.ledger, b);
    LedgerMovesOn(sys.ledger, RecordExecution(WithIntent(sys.ledger, Order3(n)), n, o, n, n).value, b, AfterOrder(b));
  }

  lemma NotBlocked(s: LedgerState, b: Progress)
    requires LedgerAt(s, b)
    ensures s.blocked == b.blocked
  {
    hide LedgerHas, Holds;
  }

  lemma OrderReport(m: MockState, b: Progress)
    requires MockAt(m, b) && |b.reported| == |b.applied| < 4
    requires if |b.applied| < 2 then b.scripts == 0 else b.scripts > 0 && b.held > 1
    ensures var n := |b.applied|; var o := Submitted(m, "T", SideOf(n), 3, n);
      n !in m.applied && HoldsUnits(m, b.held) && o.id == n && o.filled == (if n < 2 then 3 else 1) && o.avg == 100.0
  {
    hide MockHas, HoldsUnits;
    var n := |b.applied|;
    assert n >= 2 ==> m.scenarios[0] == SlowSale();
  }

  /** A buy fills whole; a sale fills one unit, which the broker applies and the ledger defers. */
  lemma OrderStands(sys: System, b: Progress)
    requires StandsAt(sys, b) && b.blocked == {} && |b.applied| < 4 && |b.open| == Min(|b.applied|, 2) && b.held >= 0
    requires if |b.applied| < 2 then b.scripts == 0 else b.scripts > 0 && b.held > 1
    ensures Good(sys, Order3(|b.applied|)) && StandsAt(Next(sys, Order3(|b.applied|)), AfterOrder(b))
  {
    hide LedgerAt, MockAt, HoldsUnits, SlowSale, RecordExecution, Submitted, AfterSubmit, Repeated, Next, Good, FreshIds, Refused, Covered;
    var n := |b.applied|;
    OrderIsNew(sys, b);
    OrderReport(sys.mock, b);
    var o := Submitted(sys.mock, "T", SideOf(n), 3, n);
    OrderIsCovered(sys, n, b.held);
    OrderInMock(sys.mock, b);
    if n < 2 { BuyMovesLedger(sys, b, o); } else { SaleMovesLedger(sys, b, o); }
    OrderIsBooked(sys, n);
  }

  lemma OrderIsBooked(sys: System, n: nat)
    requires n < 4 && FreshIds(sys, Order3(n)) && !Refused(sys, Order3(n)) && !Repeated(sys.ledger, Order3(n)) && Covered(sys, Order3(n))
    requires RecordExecution(WithIntent(sys.ledger, Order3(n)), n, Submitted(sys.mock, "T", SideOf(n), 3, n), n, n).Ok?
    ensures Good(sys, Order3(n))
    ensures Next(sys, Order3(n)) == System(RecordExecution(WithIntent(sys.ledger, Order3(n)), n, Submitted(sys.mock, "T", SideOf(n), 3, n), n, n).value,
                                           AfterSubmit(sys.mock, "T", SideOf(n), 3, n))
  {
    hide RecordExecution, Submitted, AfterSubmit, Repeated;
  }

  lemma OrderIsCovered(sys: System, n: nat, held: int)
    requires n < 4 && n !in sys.mock.applied && HoldsUnits(sys.mock, held) && (n >= 2 ==> held > 1)
    requires Submitted(sys.mock, "T", SideOf(n), 3, n).id == n && (n >= 2 ==> Submitted(sys.mock, "T", SideOf(n), 3, n).filled == 1)
    ensures Covered(sys, Order3(n))
  {
  }

  lemma ScriptStands(sys: System, b: Progress)
    requires StandsAt(sys, b)
    ensures Good(sys, Script(SlowSale())) && StandsAt(Next(sys, Script(SlowSale())), b.(scripts := b.scripts + 1))
  {
    hide LedgerHas, Holds, SlowSale;
    var next := Next(sys, Script(SlowSale()));
    assert next.mock.scenarios == seq(b.scripts + 1, _ => SlowSale());
    forall x: Id | x < |b.reported| ensures MockHas(next.mock, x, b.reported[x], b.polls[x]) {
      MockHasStill(sys.mock, next.mock, x, b.reported[x], b.polls[x]);
    }
  }

  /** Six units on one side and four on the other: the reconcile blocks the ticker. */
  lemma ReconcileStands(sys: System, b: Progress)
    requires StandsAt(sys, b) && b.open == [3, 3] && b.held == 4
    ensures Good(sys, Reconcile) && StandsAt(Next(sys, Reconcile), b.(blocked := b.blocked + {"T"}))
  {
    hide LedgerHas, MockHas, HoldsUnits, SlowSale, Mismatched, Listed;
    var next := Next(sys, Reconcile);
    assert Holds(sys.ledger, 0, b.open[0]) && Holds(sys.ledger, 1, b.open[1]);
    assert sys.ledger.positions.Keys == {0, 1};
    OnlyMismatch(sys);
    forall x: Id | x < |b.applied| ensures LedgerHas(next.ledger, x, b.applied[x]) {
      LedgerHasStill(sys.ledger, next.ledger, x, b.applied[x]);
    }
  }

  lemma OnlyMismatch(sys: System)
    requires HoldsUnits(sys.mock, 4) && sys.ledger.positions.Keys == {0, 1} && Holds(sys.ledger, 0, 3) && Holds(sys.ledger, 1, 3)
    ensures Mismatched(sys.ledger.positions, sys.mock.holdings) == {"T"} == Listed(sys.ledger.positions, sys.mock.holdings)
  {
    hide Sum, SumBy;
    var positions := sys.ledger.positions;
    SumByRemove(positions, 0, CountedIn("T"));
    SumByRemove(positions - {0}, 1, CountedIn("T"));
    SumByEmpty(positions - {0} - {1}, CountedIn("T"));
    assert LedgerCount(positions, "T") == 6.0;
    assert "T" in sys.mock.holdings && BrokerCount(sys.mock.holdings, "T") == 4;
    assert positions[0].ticker == "T" && ActiveTickers(positions) == {"T"};
  }

  function AfterPollOf(b: Progress, x: nat): Progress
    requires |b.open| == 2 <= x < |b.applied| == |b.reported| == |b.polls| == 4
  {
    b.(open := b.open[x - 2 := 0], applied := b.applied[x := 3], reported := b.reported[x := 3], polls := b.polls[x := []], held := b.held - 2)
  }

  /** The poll of a sale brings its last two units: the ledger books three, and the position closes. */
  lemma PollStands(sys: System, b: Progress, x: nat)
    requires StandsAt(sys, b) && |b.open| == 2 <= x < |b.applied| == 4 && b.open[x - 2] == 3 && b.held >= 2
    requires b.applied[x] == 0 && b.reported[x] == 1 && b.polls[x] == SlowSale().polls
    ensures var e := Poll(x, 4);
      && Good(sys, e)
      && StandsAt(Next(sys, e), AfterPollOf(b, x))
  {
    hide LedgerHas, MockHas, Holds, HoldsUnits, SlowSale, ApplyFill, Polled, AfterPoll;
    assert LedgerHas(sys.ledger, x, 0) && Holds(sys.ledger, x - 2, 3) && MockHas(sys.mock, x, 1, SlowSale().polls);
    PollInMock(sys.mock, x, b.held);
    PollInLedger(sys.ledger, x, Polled(sys.mock, x));
    PollIsCovered(sys, x, b.held);
    var next := Next(sys, Poll(x, 4));
    forall y: Id | y < 4 && y != x
      ensures LedgerHas(next.ledger, y, b.applied[y]) && MockHas(next.mock, y, b.reported[y], b.polls[y])
    {
      LedgerHasStill(sys.ledger, next.ledger, y, b.applied[y]);
      MockHasStill(sys.mock, next.mock, y, b.reported[y], b.polls[y]);
    }
    forall k: Id | k < 2 && k != x - 2 ensures Holds(next.ledger, k, b.open[k]) {
      HoldsStill(sys.ledger, next.ledger, k, b.open[k]);
    }
  }

  lemma PollIsCovered(sys: System, x: nat, held: int)
    requires LedgerHas(sys.ledger, x, 0) && MockHas(sys.mock, x, 1, SlowSale().polls) && HoldsUnits(sys.mock, held) && held >= 2
    requires 2 <= x < 4 && Polled(sys.mock, x).filled == 3
    ensures sys.ledger.executions[x].order == x && Covered(sys, Poll(x, 4)) && !Refused(sys, Poll(x, 4))
  {
  }

  lemma StandsSoldOut(sys: System, b: Progress)
    requires StandsAt(sys, b) && b.open == [0, 0] && b.applied == b.reported == [3, 3, 3, 3] && b.polls == [[], [], [], []] && b.held == 0
    requires "T" in b.blocked
    ensures SoldOut(sys, "T")
  {
    hide LedgerHas, MockHas, Holds;
    forall id | id in sys.ledger.positions ensures !Active(sys.ledger.positions[id]) {
      assert id == 0 || id == 1;
      ClosedIsNotActive(sys.ledger, id, b.open[id]);
    }
    forall x | x in sys.ledger.executions ensures Finished(sys.mock, sys.ledger.executions[x]) {
      assert x == 0 || x == 1 || x == 2 || x == 3;
      assert LedgerHas(sys.ledger, x, b.applied[x]) && MockHas(sys.mock, x, b.reported[x], b.polls[x]);
      FilledIsFinished(sys, x);
    }
  }

  lemma ClosedIsNotActive(s: LedgerState, k: Id, open: int)
    requires Holds(s, k, open) && open == 0
    ensures k in s.positions && !Active(s.positions[k])
  {
  }

  lemma FilledIsFinished(sys: System, x: Id)
    requires LedgerHas(sys.ledger, x, 3) && MockHas(sys.mock, x, 3, [])
    ensures x in sys.ledger.executions && Finished(sys.mock, sys.ledger.executions[x])
  {
  }

  lemma GoodFirst(sys: System, e: Event, rest: seq<Event>)
    requires Good(sys, e) && GoodRun(Next(sys, e), rest)
    ensures GoodRun(sys, [e] + rest) && After(sys, [e] + rest) == After(Next(sys, e), rest)
  {
    assert ([e] + rest)[1..] == rest;
  }

  /** Both orders to sell reported by one unit, which the ledger defers. */
  function BothDeferred(): Progress {
    var rest := SlowSale().polls;
    Progress([3, 3], [3, 3, 0, 0], [3, 3, 1, 1], [[], [], rest, rest], 4, {}, 0)
  }

  /** The reconcile now blocks the ticker; then the rest of the sales comes in. */
  lemma ThenSoldOut(sys: System) returns (run: seq<Event>)
    requires StandsAt(sys, BothDeferred())
    ensures GoodRun(sys, run) && SoldOut(After(sys, run), "T")
  {
    hide StandsAt, Next, Good, SoldOut, SlowSale;
    var rest := SlowSale().polls;
    var b7 := BothDeferred().(blocked := {"T"});
    var b8 := Progress([0, 3], [3, 3, 3, 0], [3, 3, 3, 1], [[], [], [], rest], 2, {"T"}, 0);
    var b9 := Progress([0, 0], [3, 3, 3, 3], [3, 3, 3, 3], [[], [], [], []], 0, {"T"}, 0);
    assert AfterPollOf(b7, 2) == b8 && AfterPollOf(b8, 3) == b9 && {} + {"T"} == {"T"};
    ReconcileStands(sys, BothDeferred());
    var s7 := Next(sys, Reconcile);
    PollStands(s7, b7, 2);
    var s8 := Next(s7, Poll(2, 4));
    PollStands(s8, b8, 3);
    StandsSoldOut(Next(s8, Poll(3, 4)), b9);
    run := [];
    GoodFirst(s8, Poll(3, 4), run);
    run := [Poll(3, 4)] + run;
    GoodFirst(s7, Poll(2, 4), run);
    run := [Poll(2, 4)] + run;
    GoodFirst(sys, Reconcile, run);
    run := [Reconcile] + run;
  }

  lemma ThenSold(sys: System) returns (run: seq<Event>)
    requires StandsAt(sys, Progress([3, 3], [3, 3], [3, 3], [[], []], 6, {}, 2))
    ensures GoodRun(sys, run) && SoldOut(After(sys, run), "T")
  {
    hide StandsAt, Next, Good, SoldOut, SlowSale, Order3, GoodRun, After;
    var rest := SlowSale().polls;
    var b4 := Progress([3, 3], [3, 3], [3, 3], [[], []], 6, {}, 2);
    var b5 := Progress([3, 3], [3, 3, 0], [3, 3, 1], [[], [], rest], 5, {}, 1);
    assert AfterOrder(b4) == b5 && AfterOrder(b5) == BothDeferred();
    OrderStands(sys, b4);
    var s5 := Next(sys, Order3(2));
    OrderStands(s5, b5);
    run := ThenSoldOut(Next(s5, Order3(3)));
    GoodFirst(s5, Order3(3), run);
    run := [Order3(3)] + run;
    GoodFirst(sys, Order3(2), run);
    run := [Order3(2)] + run;
  }

  lemma ThenScripted(sys: System) returns (run: seq<Event>)
    requires StandsAt(sys, Progress([3, 3], [3, 3], [3, 3], [[], []], 6, {}, 0))
    ensures GoodRun(sys, run) && SoldOut(After(sys, run), "T")
  {
    hide StandsAt, Next, Good, SoldOut, SlowSale, GoodRun, After;
    var b2, script := Progress([3, 3], [3, 3], [3, 3], [[], []], 6, {}, 0), Script(SlowSale());
    ScriptStands(sys, b2);
    var s3 := Next(sys, script);
    ScriptStands(s3, b2.(scripts := 1));
    run := ThenSold(Next(s3, script));
    GoodFirst(s3, script, run);
    run := [script] + run;
    GoodFirst(sys, script, run);
    run := [script] + run;
  }

  /** Two buys are filled; both sales are reported one unit at first, which the ledger defers; the reconcile between that and the
      rest blocks the ticker, and when both sides are sold out it stays blocked. */
  lemma SoldOutIsReached() returns (run: seq<Event>)
    ensures GoodRun(Start, run) && SoldOut(After(Start, run), "T")
  {
    hide StandsAt, Next, Good, SoldOut, SlowSale, Order3, GoodRun, After;
    var b0, b1 := Progress([], [], [], [], 0, {}, 0), Progress([3], [3], [3], [[]], 3, {}, 0);
    assert AfterOrder(b0) == b1 && AfterOrder(b1) == Progress([3, 3], [3, 3], [3, 3], [[], []], 6, {}, 0);
    StartStands();
    OrderStands(Start, b0);
    var s1 := Next(Start, Order3(0));
    OrderStands(s1, b1);
    run := ThenScripted(Next(s1, Order3(1)));
    GoodFirst(s1, Order3(1), run);
    run := [Order3(1)] + run;
    GoodFirst(Start, Order3(0), run);
    run := [Order3(0)] + run;
  }

  /** So there is a run after which, whatever follows, the ticker stays blocked and every request in it is refused. */
  lemma LockedForGood() returns (run: seq<Event>)
    ensures GoodRun(Start, run)
    ensures forall more :: GoodRun(After(Start, run), more) ==>
      forall e: Event :: e.Request? && e.ticker == "T" ==> Refused(After(After(Start, run), more), e)
  {
    hide GoodRun, After, SoldOut, Refused, Linked;
    run := SoldOutIsReached();
    StartsLinked("T");
    RunMovesLittle(Start, run, "T");
    forall more | GoodRun(After(Start, run), more)
      ensures forall e: Event :: e.Request? && e.ticker == "T" ==> Refused(After(After(Start, run), more), e)
    {
      SoldOutForGood(After(Start, run), more, "T");
    }
  }
}
