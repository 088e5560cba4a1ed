/** The scripted broker with partial fills: ticker-level share counts only. */
module MockBrokerSpec {
  import opened Common
  import opened Orders

  /** One scripted answer to a poll; `None` leaves the field of the order as it is. */
  datatype PollSpec = PollSpec(status: Option<OrderStatus>, filled: Option<int>, avg: Option<real>)

  /** The scripted fate of the next order. */
  datatype Scenario = Scenario(status: OrderStatus, filled: Option<int>, avg: real, polls: seq<PollSpec>)

  datatype MockState = MockState(
    holdings: map<string, int>, orders: map<Id, Order>, polls: map<Id, seq<PollSpec>>, applied: map<Id, int>, scenarios: seq<Scenario>)

  const EmptyMock: MockState := MockState(map[], map[], map[], map[], [])

  function HeldBy(m: MockState, ticker: string): int {
    if ticker in m.holdings then m.holdings[ticker] else 0
  }

  /** What is new in a cumulative report. */
  function NewUnits(m: MockState, o: Order): int {
    o.filled - (if o.id in m.applied then m.applied[o.id] else 0)
  }

  /** Move the holding by `delta`; a holding that is sold out, or beyond, disappears. */
  function WithDelta(holdings: map<string, int>, ticker: string, side: Side, delta: int): map<string, int> {
    var row := if ticker in holdings then holdings[ticker] else 0;
    if side == Buy then holdings[ticker := row + delta]
    else if row - delta <= 0 then holdings - {ticker}
    else holdings[ticker := row - delta]
  }

  /** Apply a cumulative report to the holdings: only what is new counts. */
  function WithReport(m: MockState, o: Order): MockState {
    if NewUnits(m, o) <= 0 then m
    else m.(holdings := WithDelta(m.holdings, o.ticker, o.side, NewUnits(m, o)), applied := m.applied[o.id := o.filled])
  }

  function NextScenario(m: MockState, shares: int): Scenario {
    if m.scenarios != [] then m.scenarios[0] else Scenario(Filled, Some(shares), 100.0, [])
  }

  function InitialFill(s: Scenario, shares: int): int {
    match s.filled
    case Some(f) => f
    case None =>
      match s.status
      case Filled => shares
      case Partial => RoundHalfEven(shares as real / 2.0)
      case _ => 0
  }

  /** Without a scripted fill a filled order fills whole, a partial one half, to the nearest unit with ties to the even one, and any
      other nothing. */
  lemma InitialFillExactly(s: Scenario, shares: int)
    requires s.filled.None?
    ensures var fill := InitialFill(s, shares);
      && (s.status == Filled ==> fill == shares)
      && (s.status == Partial ==> shares - 1 <= 2 * fill <= shares + 1 && (2 * fill != shares ==> fill % 2 == 0))
      && (s.status !in {Filled, Partial} ==> fill == 0)
  {
  }

  /** The order a submission creates. */
  function Submitted(m: MockState, ticker: string, side: Side, shares: int, id: Id): Order {
    var s := NextScenario(m, shares);
    Order(id, ticker, side, shares, 0.0, s.status, InitialFill(s, shares), s.avg, 0.0, 0)
  }

  /** The broker after the submission. */
  function AfterSubmit(m: MockState, ticker: string, side: Side, shares: int, id: Id): MockState {
    var o := Submitted(m, ticker, side, shares, id);
    WithReport(m.(orders := m.orders[id := o], polls := m.polls[id := NextScenario(m, shares).polls], applied := m.applied[id := 0],
                  scenarios := if m.scenarios == [] then [] else m.scenarios[1..]), o)
  }

  function CloneOrder(o: Order, spec: PollSpec): Order {
    o.(status := spec.status.GetOr(o.status), filled := spec.filled.GetOr(o.filled), avg := spec.avg.GetOr(o.avg))
  }

  /** The order a poll reports. */
  function Polled(m: MockState, id: Id): Order
    requires id in m.orders
  {
    if id in m.polls && m.polls[id] != [] then CloneOrder(m.orders[id], m.polls[id][0]) else m.orders[id]
  }

  /** The broker after the poll. */
  function AfterPoll(m: MockState, id: Id): MockState
    requires id in m.orders
  {
    if id in m.polls && m.polls[id] != []
    then WithReport(m.(polls := m.polls[id := m.polls[id][1..]], orders := m.orders[id := Polled(m, id)]), Polled(m, id))
    else m
  }
}

module MockBrokers {
  import opened Common
  import opened Orders
  import opened MockBrokerSpec

  class MockBroker {
    var holdings: map<string, int>
    var orders: map<Id, Order>
    var pollSequences: map<Id, seq<PollSpec>>
    var appliedToHoldings: map<Id, int>
    var scenarios: seq<Scenario>
    var nextId: nat

    function State(): MockState
      reads this
    {
      MockState(holdings, orders, pollSequences, appliedToHoldings, scenarios)
    }

    ghost predicate Valid()
      reads this
    {
      && (forall id :: id in orders ==> id < nextId && orders[id].id == id)
      && (forall id :: id in appliedToHoldings ==> id < nextId)
    }

    constructor ()
      ensures Valid() && State() == EmptyMock
    {
      holdings, orders, pollSequences, appliedToHoldings, scenarios, nextId := map[], map[], map[], map[], [], 1;
    }

    method QueueOrder(s: Scenario)
      requires Valid()
      modifies this`scenarios
      ensures Valid() && State() == old(State()).(scenarios := old(scenarios) + [s])
    {
      scenarios := scenarios + [s];
    }

    method Submit(ticker: string, side: Side, shares: int) returns (o: Order)
      requires Valid()
      modifies this
      ensures Valid() && o.id !in old(orders) && o.id !in old(appliedToHoldings) && o.id == old(nextId) == nextId - 1
      ensures o == Submitted(old(State()), ticker, side, shares, o.id) && State() == AfterSubmit(old(State()), ticker, side, shares, o.id)
    {
      var id := nextId;
      nextId := nextId + 1;
      var scenario := NextScenario(State(), shares);
      if scenarios != [] { scenarios := scenarios[1..]; }
      o := Order(id, ticker, side, shares, 0.0, scenario.status, InitialFill(scenario, shares), scenario.avg, 0.0, 0);
      orders := orders[id := o];
      pollSequences := pollSequences[id := scenario.polls];
      appliedToHoldings := appliedToHoldings[id := 0];
      ApplyCumulativeFillToHoldings(o);
    }

    /** Report an order; the next scripted answer, if any, replaces it first. */
    method GetOrder(id: Id) returns (found: Option<Order>)
      requires Valid()
      modifies this
      ensures Valid() && nextId == old(nextId)
      ensures id !in old(orders) ==> found == None && State() == old(State())
      ensures id in old(orders) ==> found == Some(Polled(old(State()), id)) && State() == AfterPoll(old(State()), id)
    {
      if id !in orders { return None; }
      var o := orders[id];
      if id in pollSequences && pollSequences[id] != [] {
        var spec := pollSequences[id][0];
        pollSequences := pollSequences[id := pollSequences[id][1..]];
        o := CloneOrder(o, spec);
        orders := orders[id := o];
        ApplyCumulativeFillToHoldings(o);
      }
      found := Some(o);
    }

    method ApplyCumulativeFillToHoldings(o: Order)
      requires o.id < nextId
      modifies this`holdings, this`appliedToHoldings
      ensures State() == WithReport(old(State()), o)
      ensures forall id :: id in appliedToHoldings ==> id in old(appliedToHoldings) || id == o.id
    {
      var previous := if o.id in appliedToHoldings then appliedToHoldings[o.id] else 0;
      var delta := o.filled - previous;
      if delta <= 0 { return; }
      ApplyDelta(o.ticker, o.side, delta);
      appliedToHoldings := appliedToHoldings[o.id := o.filled];
    }

    method ApplyDelta(ticker: string, side: Side, delta: int)
      modifies this`holdings
      ensures holdings == WithDelta(old(holdings), ticker, side, delta)
    {
      var row := if ticker in holdings then holdings[ticker] else 0;
      if side == Buy {
        holdings := holdings[ticker := row + delta];
        return;
      }
      var now := row - delta;
      if now <= 0 {
        holdings := holdings - {ticker};
      } else {
        holdings := holdings[ticker := now];
      }
    }
  }
}
