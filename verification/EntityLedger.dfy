/** The entity-level position ledger: one accounting position per entity, updated in place. */
module EntityLedger {
  import opened Common
  import opened Orders
  import opened Sums
  import opened LedgerSpec
  import opened LedgerFacts

  lemma {:induction false} FreshIdExists(used: set<Id>) returns (id: Id)
    ensures forall i :: i in used ==> i < id
  {
    if used == {} {
      id := 0;
    } else {
      var u :| u in used;
      var rest := FreshIdExists(used - {u});
      id := if u < rest then rest else u + 1;
      assert forall i :: i in used ==> i == u || i in used - {u};
    }
  }

  /** `byTicker` holds the counted units of every ticker of `done`. */
  ghost predicate Counts(byTicker: map<string, int>, done: map<Id, Position>) {
    && byTicker.Keys == ActiveTickers(done)
    && forall t :: LedgerCount(done, t) == (if t in byTicker then byTicker[t] else 0) as real
  }

  function CountOne(byTicker: map<string, int>, p: Position): map<string, int> {
    if Active(p) then byTicker[p.ticker := (if p.ticker in byTicker then byTicker[p.ticker] else 0) + p.openShares] else byTicker
  }

  lemma CountsNothing(done: map<Id, Position>)
    requires done == map[]
    ensures Counts(map[], done)
  {
    forall t ensures LedgerCount(done, t) == 0.0 { SumByEmpty(done, CountedIn(t)); }
  }

  lemma CountStep(byTicker: map<string, int>, done: map<Id, Position>, id: Id, p: Position)
    requires Counts(byTicker, done) && id !in done
    ensures Counts(CountOne(byTicker, p), done[id := p])
  {
    var now := done[id := p];
    hide Sum, SumBy;
    ActiveTickersStep(done, id, p);
    forall t ensures LedgerCount(now, t) == (if t in CountOne(byTicker, p) then CountOne(byTicker, p)[t] else 0) as real {
      SumByUpdate(done, id, p, CountedIn(t));
      assert LedgerCount(done, t) == (if t in byTicker then byTicker[t] else 0) as real;
      assert CountedIn(t)(p) == if p.ticker == t && Active(p) then p.openShares as real else 0.0;
    }
  }

  /** A new identifier: any one not in use. */
  method NewId(used: set<Id>) returns (id: Id)
    ensures id !in used
  {
    ghost var bound := FreshIdExists(used);
    assert bound !in used;
    id :| id !in used;
  }

  class EntityPositionLedger {
    var positions: map<Id, Position>
    var executions: map<Id, Execution>
    var intents: map<Id, Intent>
    var blocked: set<string>

    function State(): LedgerState
      reads this
    {
      LedgerState(positions, executions, intents, blocked)
    }

    constructor ()
      ensures State() == EmptyLedger
    {
      positions, executions, intents, blocked := map[], map[], map[], {};
    }

    /** The ids of all positions with open shares, each once. */
    method OpenPositions() returns (ids: seq<Id>)
      ensures forall id :: id in ids <==> id in OpenIds(positions)
      ensures forall i, j :: 0 <= i < j < |ids| ==> ids[i] != ids[j]
      ensures |ids| == |OpenIds(positions)|
    {
      ids := [];
      var todo := OpenIds(positions);
      while todo != {}
        invariant todo <= OpenIds(positions)
        invariant forall id :: id in ids <==> id in OpenIds(positions) - todo
        invariant forall i, j :: 0 <= i < j < |ids| ==> ids[i] != ids[j]
        invariant |ids| + |todo| == |OpenIds(positions)|
        decreases todo
      {
        var id :| id in todo;
        assert id !in ids;
        ids, todo := ids + [id], todo - {id};
      }
    }

    /** Register the wish to trade. A request that is still on its way is returned instead of doubled. */
    method OpenIntent(entity: string, ticker: string, side: Side, purpose: string, shares: int, target: Option<Id>)
      returns (r: Outcome<LedgerError>, iid: Id)
      modifies this
      ensures match IntentComplaint(old(State()), entity, ticker, side, shares, target)
              case Some(error) => r == Raise(error) && State() == old(State())
              case None =>
                && r == Pass
                && iid in intents && SameRequest(intents[iid], entity, ticker, side, purpose, target)
                && if exists i :: i in old(intents) && SameRequest(old(intents)[i], entity, ticker, side, purpose, target)
                   then State() == old(State())
                   else iid !in old(intents)
                        && State() == old(State()).(intents := old(intents)[iid := Intent(entity, ticker, side, purpose, target, shares, OpenState, None)])
    {
      iid := 0;
      if entity == "" { return Raise(EntityRequired), iid; }
      if ticker == "" { return Raise(TickerRequired), iid; }
      if shares <= EPSILON { return Raise(SharesMustBePositive), iid; }
      if ticker in blocked { return Raise(ReconcileBlocked), iid; }
      if side == Sell && target == None { return Raise(SellNeedsTarget), iid; }
      r := Pass;
      if i :| i in intents && SameRequest(intents[i], entity, ticker, side, purpose, target) {
        iid := i;
      } else {
        iid := NewId(intents.Keys);
        intents := intents[iid := Intent(entity, ticker, side, purpose, target, shares, OpenState, None)];
      }
    }

    /** Put the broker's answer to an intent on record and book what it filled at once. */
    method RecordExecution(iid: Id, o: Order) returns (r: Outcome<LedgerError>, eid: Id, ghost newId: Id)
      requires iid in intents
      modifies this
      ensures eid !in old(executions) && newId !in old(positions)
      ensures match LedgerSpec.RecordExecution(old(State()), iid, o, eid, newId)
              case Ok(s) => r == Pass && State() == s
              case Err(error) => r == Raise(error) && State() == WithExecution(old(State()), iid, o, eid)
    {
      var i := intents[iid];
      eid := NewId(executions.Keys);
      executions := executions[eid := NewExecution(i, iid, o)];
      intents := intents[iid := i.(execution := Some(eid), status := StateOf(o.status))];
      if o.filled > EPSILON {
        r, newId := ApplyFill(eid, o);
      } else {
        r := Pass;
        newId := NewId(positions.Keys);
      }
    }

    /** Book what an order has filled beyond what was applied before; polling again is harmless. */
    method ApplyFill(eid: Id, o: Order) returns (r: Outcome<LedgerError>, ghost newId: Id)
      modifies this
      ensures newId !in old(positions)
      ensures match LedgerSpec.ApplyFill(old(State()), eid, o, newId)
              case Ok(s) => r == Pass && State() == s
              case Err(error) => r == Raise(error) && State() == old(State())
    {
      newId := NewId(positions.Keys);
      if eid !in executions { return Raise(ExecutionNotFound), newId; }
      var e := executions[eid];
      var delta := o.filled - e.applied;
      var avg := CumulativeAvg(e, o);
      if delta <= EPSILON {
        UpdateExecutionFromOrder(eid, e.(filled := o.filled, avg := OrElse(o.avg, e.avg)), o);
        return Pass, newId;
      }
      var price := SplitPrice(o.filled, avg, e.applied, e.avg);
      if price <= 0.0 { price := avg; }
      if price <= 0.0 { return Raise(PriceRequired), newId; }
      var pid: Id;
      if e.side == Buy {
        r, pid := ApplyBuyFill(e, delta, price, o.filledAt);
        if pid !in old(positions) { newId := pid; }
      } else {
        r, pid := ApplySellFill(e, delta, price);
      }
      if r.Pass? {
        UpdateExecutionFromOrder(eid, e.(position := Some(pid), applied := o.filled, filled := o.filled, avg := avg), o);
      }
    }

    method ApplyBuyFill(e: Execution, delta: int, price: real, date: int) returns (r: Outcome<LedgerError>, pid: Id)
      requires delta > EPSILON
      modifies this`positions, this`intents
      ensures e.position.Some? ==> pid == e.position.value
      ensures e.position.None? ==> pid !in old(positions)
      ensures pid !in old(positions) ==>
                && r == Pass
                && positions == old(positions)[pid := BuyInto(NewPosition(e.entity, e.ticker, price, date), delta, price)]
                && intents == if e.intent in old(intents) then old(intents)[e.intent := old(intents)[e.intent].(target := Some(pid))] else old(intents)
      ensures pid in old(positions) ==>
                var p := old(positions)[pid];
                && intents == old(intents)
                && if p.entity != e.entity || p.ticker != e.ticker then r == Raise(TargetMismatch) && positions == old(positions)
                   else if p.openShares + delta <= EPSILON then r == Raise(NonPositiveOpen) && positions == old(positions)
                   else r == Pass && positions == old(positions)[pid := BuyInto(p, delta, price).(addBuys := p.addBuys + 1)]
    {
      if e.position.Some? { pid := e.position.value; } else { pid := NewId(positions.Keys); }
      var isAddBuy := pid in positions;
      if !isAddBuy {
        positions := positions[pid := NewPosition(e.entity, e.ticker, price, date)];
        if e.intent in intents {
          intents := intents[e.intent := intents[e.intent].(target := Some(pid))];
        }
      } else if positions[pid].entity != e.entity || positions[pid].ticker != e.ticker {
        return Raise(TargetMismatch), pid;
      }
      var p := positions[pid];
      var newOpen := p.openShares + delta;
      if newOpen <= EPSILON { return Raise(NonPositiveOpen), pid; }
      p := p.(avg := BlendedAvg(p.openShares, p.avg, delta, price));
      p := p.(openedShares := p.openedShares + delta, openShares := newOpen, status := Open);
      p := p.(high := MaxR(p.high, price), low := if p.low <= 0.0 then price else MinR(p.low, price));
      if isAddBuy { p := p.(addBuys := p.addBuys + 1); }
      positions := positions[pid := p];
      r := Pass;
    }

    method ApplySellFill(e: Execution, delta: int, price: real) returns (r: Outcome<LedgerError>, pid: Id)
      requires delta > EPSILON
      modifies this`positions
      ensures r.Raise? ==> positions == old(positions)
      ensures if e.position.None? || e.position.value !in old(positions) then r == Raise(NoTargetPosition)
              else
                var p := old(positions)[e.position.value];
                && pid == e.position.value
                && if p.entity != e.entity || p.ticker != e.ticker then r == Raise(TargetMismatch)
                   else if delta - p.openShares > EPSILON then r == Raise(SellExceedsOpen)
                   else r == Pass && positions == old(positions)[pid := SellFrom(p, delta, price)]
    {
      pid := e.position.GetOr(0);
      if e.position.None? || pid !in positions { return Raise(NoTargetPosition), pid; }
      var p := positions[pid];
      if p.entity != e.entity || p.ticker != e.ticker { return Raise(TargetMismatch), pid; }
      if delta - p.openShares > EPSILON { return Raise(SellExceedsOpen), pid; }
      var sold := Min(delta, p.openShares);
      p := p.(closedShares := p.closedShares + sold, openShares := p.openShares - sold, pnl := p.pnl + Gain(sold, price, p.avg));
      p := p.(high := MaxR(p.high, price), low := if p.low <= 0.0 then price else MinR(p.low, price));
      if p.openShares <= EPSILON {
        p := p.(openShares := 0, status := Closed);
      }
      positions := positions[pid := p];
      r := Pass;
    }

    method UpdateExecutionFromOrder(eid: Id, e: Execution, o: Order)
      modifies this`executions, this`intents
      ensures State() == WithOrderState(old(State()), eid, e, o)
    {
      var state := StateOf(o.status);
      executions := executions[eid := e.(state := state)];
      if e.intent in intents {
        intents := intents[e.intent := intents[e.intent].(status := state)];
        if state == FilledState {
          intents := intents[e.intent := intents[e.intent].(execution := Some(eid))];
        }
      }
    }

    /** Open units per ticker over the positions above the tolerance. */
    method CountByTicker() returns (byTicker: map<string, int>)
      ensures Counts(byTicker, positions)
    {
      byTicker := map[];
      ghost var done: map<Id, Position> := map[];
      var todo := positions.Keys;
      CountsNothing(done);
      while todo != {}
        invariant todo <= positions.Keys
        invariant done.Keys == positions.Keys - todo
        invariant forall id :: id in done ==> done[id] == positions[id]
        invariant Counts(byTicker, done)
        decreases todo
      {
        var id :| id in todo;
        var p := positions[id];
        CountStep(byTicker, done, id, p);
        done := done[id := p];
        byTicker := CountOne(byTicker, p);
        todo := todo - {id};
      }
      assert done == positions;
    }

    /** Compare with the broker's ticker-level holdings; block tickers that disagree by more than one unit. */
    method Reconcile(held: map<string, int>) returns (ok: bool)
      modifies this
      ensures State() == Reconciled(old(State()), held)
      ensures ok <==> forall t :: t in Listed(old(positions), held) ==> Agrees(old(positions), held, t)
    {
      hide LedgerCount;
      var byTicker := CountByTicker();
      var listed := (set t | t in held && held[t] > EPSILON) + byTicker.Keys;
      assert listed == Listed(positions, held);
      var bad := set t | t in listed && !(-1 <= (if t in byTicker then byTicker[t] else 0) - BrokerCount(held, t) <= 1);
      assert bad == Mismatched(positions, held) by {
        forall t ensures t in listed && !(-1 <= (if t in byTicker then byTicker[t] else 0) - BrokerCount(held, t) <= 1)
                   <==> t in listed && !Agrees(positions, held, t) {}
      }
      blocked := blocked - (listed - bad) + bad;
      positions := map id | id in positions :: Flagged(positions[id], bad, listed - bad);
      ok := bad == {};
      if ok {
        forall t | t in listed ensures Agrees(old(positions), held, t) { assert t !in bad; }
      } else {
        var t :| t in bad;
        assert t in listed && !Agrees(old(positions), held, t);
      }
    }
  }
}
