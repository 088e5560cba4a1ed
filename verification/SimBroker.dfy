/** Daily price data and the prices a simulated order fills at. */
module Market {
  import opened Common
  import opened Orders

  datatype Bar = Bar(date: int, open: real, high: real, low: real, close: real, atr: real, omen: Option<real>)

  type Frame = seq<Bar>

  datatype FillPolicy = FillPolicy(sameDayClose: bool, fallbackToClose: bool, slippageBps: real, commissionRate: real)

  /** The first row dated exactly `day`, looking from row `from` on. */
  function RowOn(f: Frame, day: int, from: nat): Option<nat>
    requires from <= |f|
    ensures RowOn(f, day, from).Some? ==> from <= RowOn(f, day, from).value < |f| && f[RowOn(f, day, from).value].date == day
    decreases |f| - from
  {
    if from == |f| then None
    else if f[from].date == day then Some(from)
    else RowOn(f, day, from + 1)
  }

  /** The last of the first `upto` rows dated `day` or before. */
  function LastRowUpTo(f: Frame, day: int, upto: nat): Option<nat>
    requires upto <= |f|
    ensures LastRowUpTo(f, day, upto).Some? ==> LastRowUpTo(f, day, upto).value < upto && f[LastRowUpTo(f, day, upto).value].date <= day
  {
    if upto == 0 then None
    else if f[upto - 1].date <= day then Some(upto - 1)
    else LastRowUpTo(f, day, upto - 1)
  }

  function RowForDate(f: Frame, day: int): (r: Option<nat>)
    ensures r.Some? ==> r.value < |f| && f[r.value].date <= day
  {
    var exact := RowOn(f, day, 0);
    if exact.Some? then exact else LastRowUpTo(f, day, |f|)
  }

  /** The close a holding is marked at; `None` when the data has no row for it. */
  function MarkPrice(frames: map<string, Frame>, ticker: string, day: int): Option<real> {
    if ticker !in frames then None
    else
      var row := RowForDate(frames[ticker], day);
      if row.None? then None else Some(frames[ticker][row.value].close)
  }

  /** The price and date a market order placed on `day` fills at; `None` when the simulator raises. */
  function ExecutionPrice(frames: map<string, Frame>, policy: FillPolicy, ticker: string, side: Side, day: int): Option<(real, int)> {
    if ticker !in frames then None
    else
      var f := frames[ticker];
      var row := RowForDate(f, day);
      if row.None? then None
      else
        var today := f[row.value];
        var next := !policy.sameDayClose && row.value + 1 < |f|;
        var date := if next then f[row.value + 1].date else today.date;
        var first := if policy.sameDayClose then today.close
                     else if next then OrElse(f[row.value + 1].open, 0.0) else 0.0;
        var base := if !policy.sameDayClose && first <= 0.0 && policy.fallbackToClose then today.close else first;
        if base <= 0.0 then None
        else
          var slip := policy.slippageBps / 10000.0;
          Some((base * (if side == Buy then 1.0 + slip else 1.0 - slip), date))
  }
}

/** Which row a day is read from, and what an order placed on it pays. */
module PriceFacts {
  import opened Common
  import opened Orders
  import opened Market

  /** Row i is the first dated `day`. */
  ghost predicate IsFirstOn(f: Frame, day: int, i: nat) {
    i < |f| && f[i].date == day && forall j :: 0 <= j < i ==> f[j].date != day
  }

  /** Row i is what the data has for `day`: the first row dated so, or without one the last dated before. */
  ghost predicate IsRowFor(f: Frame, day: int, i: nat) {
    || IsFirstOn(f, day, i)
    || (i < |f| && f[i].date < day && (forall j :: 0 <= j < |f| ==> f[j].date != day) && (forall j :: i < j < |f| ==> f[j].date > day))
  }

  lemma {:induction false} FirstFrom(f: Frame, day: int, from: nat)
    requires from <= |f|
    ensures match RowOn(f, day, from)
      case None => forall j :: from <= j < |f| ==> f[j].date != day
      case Some(i) => forall j :: from <= j < i ==> f[j].date != day
    decreases |f| - from
  {
    if from < |f| && f[from].date != day { FirstFrom(f, day, from + 1); }
  }

  lemma {:induction false} LastBefore(f: Frame, day: int, upto: nat)
    requires upto <= |f|
    ensures match LastRowUpTo(f, day, upto)
      case None => forall j :: 0 <= j < upto ==> f[j].date > day
      case Some(i) => forall j :: i < j < upto ==> f[j].date > day
  {
    if upto > 0 && f[upto - 1].date > day { LastBefore(f, day, upto - 1); }
  }

  /** The row found for a day is the first dated so; none is found exactly when no row is. */
  lemma RowOnExactly(f: Frame, day: int, i: nat)
    ensures RowOn(f, day, 0) == Some(i) <==> IsFirstOn(f, day, i)
    ensures RowOn(f, day, 0).None? <==> forall j :: 0 <= j < |f| ==> f[j].date != day
  {
    FirstFrom(f, day, 0);
  }

  /** Holdings are marked at the close of the row the data has for the day; there is none exactly when no row is dated so early. */
  lemma MarkExactly(frames: map<string, Frame>, ticker: string, day: int, i: nat)
    ensures ticker in frames && IsRowFor(frames[ticker], day, i) ==> MarkPrice(frames, ticker, day) == Some(frames[ticker][i].close)
    ensures MarkPrice(frames, ticker, day).None? <==> ticker !in frames || forall j :: 0 <= j < |frames[ticker]| ==> frames[ticker][j].date > day
  {
    if ticker in frames { RowForDateExactly(frames[ticker], day, i); }
  }

  lemma RowForDateExactly(f: Frame, day: int, i: nat)
    ensures RowForDate(f, day) == Some(i) <==> IsRowFor(f, day, i)
    ensures RowForDate(f, day).None? <==> forall j :: 0 <= j < |f| ==> f[j].date > day
  {
    FirstFrom(f, day, 0);
    LastBefore(f, day, |f|);
  }

  /** What an order placed on the day of row i fills at before slippage: the day's close in that mode; else the next row's open, and
      the day's close where that is missing and the policy allows it. */
  ghost predicate IsBase(base: real, date: int, f: Frame, i: nat, policy: FillPolicy)
    requires i < |f|
  {
    if policy.sameDayClose then base == f[i].close && date == f[i].date
    else if i + 1 < |f| then date == f[i + 1].date && base == if f[i + 1].open <= 0.0 && policy.fallbackToClose then f[i].close else f[i + 1].open
    else date == f[i].date && base == if policy.fallbackToClose then f[i].close else 0.0
  }

  /** An order fills at that price, moved by the slippage against the trader; the simulator raises exactly when the price is not
      positive, or the data has no row. */
  lemma QuoteExactly(frames: map<string, Frame>, policy: FillPolicy, ticker: string, side: Side, day: int, i: nat, base: real, date: int)
    requires ticker in frames && IsRowFor(frames[ticker], day, i) && IsBase(base, date, frames[ticker], i, policy)
    ensures var quote := ExecutionPrice(frames, policy, ticker, side, day);
      && (quote.Some? <==> base > 0.0)
      && (quote.Some? ==>
            && quote.value.1 == date
            && 10000.0 * quote.value.0 == base * (10000.0 + if side == Buy then policy.slippageBps else -policy.slippageBps))
  {
    RowForDateExactly(frames[ticker], day, i);
    Slipped(base, policy.slippageBps);
  }

  lemma Slipped(base: real, bps: real)
    ensures 10000.0 * (base * (1.0 + bps / 10000.0)) == base * (10000.0 + bps)
    ensures 10000.0 * (base * (1.0 - bps / 10000.0)) == base * (10000.0 - bps)
  {
  }

  lemma QuoteNeedsRow(frames: map<string, Frame>, policy: FillPolicy, ticker: string, side: Side, day: int)
    ensures ticker !in frames || (forall j :: 0 <= j < |frames[ticker]| ==> frames[ticker][j].date > day) ==>
              ExecutionPrice(frames, policy, ticker, side, day).None?
  {
    if ticker in frames { RowForDateExactly(frames[ticker], day, 0); }
  }
}

/** What one simulated order does to the broker. */
module SimBrokerSpec {
  import opened Common
  import opened Orders
  import opened Sums

  /** Money comparisons tolerate 10^-6. */
  const CASH_TOLERANCE: real := 0.000001

  datatype Holding = Holding(shares: int, avgCost: real)

  datatype BrokerState = BrokerState(cash: real, holdings: map<string, Holding>, orders: map<Id, Order>)

  function Held(b: BrokerState, ticker: string): int {
    if ticker in b.holdings then b.holdings[ticker].shares else 0
  }

  /** Ticker-level holdings as `get_holdings` reports them. */
  function Holdings(b: BrokerState): map<string, int> {
    map t | t in b.holdings && b.holdings[t].shares > 0 :: b.holdings[t].shares
  }

  function Notional(shares: int, price: real): real { Qty(shares) * price }

  function Commission(shares: int, price: real, rate: real): real { Notional(shares, price) * rate }

  /** The cash does not pay for a buy. */
  predicate TooDear(cash: real, shares: int, price: real, rate: real) {
    Notional(shares, price) + Commission(shares, price, rate) - cash > CASH_TOLERANCE
  }

  /** Whether an order is turned down. */
  predicate TurnedDown(b: BrokerState, ticker: string, side: Side, shares: int, price: real, rate: real) {
    if side == Sell then shares - Held(b, ticker) > 1 else TooDear(b.cash, shares, price, rate)
  }

  function FilledOrder(id: Id, ticker: string, side: Side, shares: int, price: real, rate: real, date: int): Order {
    Order(id, ticker, side, shares, price, Filled, shares, price, Commission(shares, price, rate), date)
  }

  function RejectedOrder(id: Id, ticker: string, side: Side, shares: int, price: real): Order {
    Order(id, ticker, side, shares, price, Rejected, 0, 0.0, 0.0, 0)
  }

  function AfterBuy(b: BrokerState, ticker: string, shares: int, price: real, commission: real): BrokerState {
    var row := if ticker in b.holdings then b.holdings[ticker] else Holding(0, 0.0);
    var now := row.shares + shares;
    var avg := if now != 0 then BlendedAvg(row.shares, row.avgCost, shares, price) else 0.0;
    b.(cash := b.cash - (Notional(shares, price) + commission), holdings := b.holdings[ticker := Holding(now, avg)])
  }

  function AfterSell(b: BrokerState, ticker: string, shares: int, price: real, commission: real): BrokerState {
    var now := Held(b, ticker) - shares;
    b.(cash := b.cash + (Notional(shares, price) - commission),
       holdings := if now <= 0 || ticker !in b.holdings then b.holdings - {ticker}
                   else b.holdings[ticker := b.holdings[ticker].(shares := now)])
  }

  /** The broker and the order after a market order of `shares` units at `price`. */
  function Submit(b: BrokerState, ticker: string, side: Side, shares: int, price: real, rate: real, id: Id, date: int): (BrokerState, Order) {
    if TurnedDown(b, ticker, side, shares, price, rate) then
      var o := RejectedOrder(id, ticker, side, shares, price);
      (b.(orders := b.orders[id := o]), o)
    else
      var o := FilledOrder(id, ticker, side, shares, price, rate, date);
      var moved := if side == Buy then AfterBuy(b, ticker, shares, price, o.commission) else AfterSell(b, ticker, shares, price, o.commission);
      (moved.(orders := b.orders[id := o]), o)
  }

  function CommissionOf(): Order -> real { (o: Order) => o.commission }

  /** All commissions charged so far. */
  ghost function CommissionsPaid(b: BrokerState): real { SumBy(b.orders, CommissionOf()) }

  /** Cash moves by exactly the traded notional, and the rest of what the cash lost is commission. */
  lemma CashMovesByNotional(b: BrokerState, ticker: string, side: Side, shares: int, price: real, rate: real, id: Id, date: int)
    requires id !in b.orders
    ensures var (b', o) := Submit(b, ticker, side, shares, price, rate, id, date);
            b'.cash + CommissionsPaid(b') ==
              b.cash + CommissionsPaid(b) + (if o.status != Filled then 0.0 else if side == Buy then -Notional(shares, price) else Notional(shares, price))
  {
    var (b', o) := Submit(b, ticker, side, shares, price, rate, id, date);
    SumByUpdate(b.orders, id, o, CommissionOf());
  }

  /** What an order does, in units, price and rate: a buy is turned down exactly when the cash does not pay for it with commission,
      up to the tolerance; a sale exactly when it asks for over a unit more than is held. */
  lemma OrderExactly(b: BrokerState, ticker: string, side: Side, shares: int, price: real, rate: real, id: Id, date: int)
    requires shares > 0 && forall t :: t in b.holdings ==> b.holdings[t].shares > 0
    ensures var (b', o) := Submit(b, ticker, side, shares, price, rate, id, date);
      var held, left := if ticker in Holdings(b) then Holdings(b)[ticker] else 0, if ticker in Holdings(b') then Holdings(b')[ticker] else 0;
      && (o.status == Filled <==>
            if side == Buy then shares as real * price * (1.0 + rate) <= 1_000_000.0 * b.cash + 1.0 else shares <= held + 1)
      && (o.status == Filled ==>
            && 1_000_000.0 * b'.cash == 1_000_000.0 * b.cash
                 + (if side == Buy then -(shares as real * price * (1.0 + rate)) else shares as real * price * (1.0 - rate))
            && left == (if side == Buy then held + shares else if shares > held then 0 else held - shares)
            && 1_000_000.0 * o.commission == shares as real * price * rate && o.filled == shares && o.avg == price && o.filledAt == date)
      && (o.status != Filled ==> b' == b.(orders := b.orders[id := o]) && o.filled == 0 == o.filledAt && o.commission == 0.0 == o.avg)
      && forall t :: t != ticker ==> (t in b'.holdings <==> t in b.holdings) && (t in b.holdings ==> b'.holdings[t] == b.holdings[t])
  {
    hide BlendedAvg;
    MoneyInUnits(shares, price, rate);
  }

  /** A holding's cost is the average over the units bought, also after sales. */
  lemma HoldingCost(b: BrokerState, ticker: string, side: Side, shares: int, price: real, rate: real, id: Id, date: int)
    requires shares > 0 && forall t :: t in b.holdings ==> b.holdings[t].shares > 0
    ensures var (b', o) := Submit(b, ticker, side, shares, price, rate, id, date);
      var was := if ticker in b.holdings then b.holdings[ticker] else Holding(0, 0.0);
      o.status == Filled && ticker in b'.holdings ==>
        var now := b'.holdings[ticker];
        if side == Buy then now.avgCost * now.shares as real == was.avgCost * was.shares as real + price * shares as real
        else now.avgCost == was.avgCost
  {
    hide BlendedAvg;
    var open, avg := if ticker in b.holdings then b.holdings[ticker].shares else 0, if ticker in b.holdings then b.holdings[ticker].avgCost else 0.0;
    AverageInUnits(open, avg, shares, price);
  }

  lemma AverageInUnits(open: int, avg: real, delta: int, price: real)
    requires open >= 0 && delta > 0
    ensures BlendedAvg(open, avg, delta, price) * (open + delta) as real == avg * open as real + price * delta as real
  {
    var money, units := Qty(open) * avg + Qty(delta) * price, Qty(open + delta);
    assert money / units * units == money;
    assert 1_000_000.0 * money == avg * open as real + price * delta as real;
    assert 1_000_000.0 * units == (open + delta) as real;
  }

  lemma MoneyInUnits(shares: int, price: real, rate: real)
    ensures 1_000_000.0 * Notional(shares, price) == shares as real * price
    ensures 1_000_000.0 * Commission(shares, price, rate) == shares as real * price * rate
    ensures shares as real * price * (1.0 + rate) == shares as real * price + shares as real * price * rate
    ensures shares as real * price * (1.0 - rate) == shares as real * price - shares as real * price * rate
  {
  }

  /** With a commission rate of at most one and positive prices no order takes the cash below zero by
      more than the tolerance, unless it was there before. */
  lemma CashFloor(b: BrokerState, ticker: string, side: Side, shares: int, price: real, rate: real, id: Id, date: int)
    requires shares > 0
    requires rate <= 1.0 && (side == Sell ==> price >= 0.0)
    ensures Submit(b, ticker, side, shares, price, rate, id, date).0.cash >= MinR(b.cash, -CASH_TOLERANCE)
  {
    if side == Sell {
      assert Notional(shares, price) >= 0.0;
      assert Notional(shares, price) * rate <= Notional(shares, price);
    }
  }

  /** A rate above one makes a sale cost money, so the cash floor then fails: at every such rate and every price a broker that
      starts with cash alone buys and sells again, both orders fill, and the cash is below the floor. */
  lemma CashFloorNeedsRate(rate: real, price: real)
    requires rate > 1.0 && price > 0.0
    ensures exists capital: real, shares: int ::
              capital >= 0.0 && shares > 0 && RoundTrip(capital, shares, price, rate).cash < -CASH_TOLERANCE
              && Submit(BrokerState(capital, map[], map[]), "T", Buy, shares, price, rate, 0, 0).1.status == Filled
              && Submit(Submit(BrokerState(capital, map[], map[]), "T", Buy, shares, price, rate, 0, 0).0, "T", Sell, shares, price, rate, 1, 0).1.status == Filled
  {
    var drain := price * (rate - 1.0);
    assert drain > 0.0;
    var lots := (1.0 / drain).Floor + 2;
    assert lots as real >= 1.0 / drain > 0.0;
    assert lots as real * drain >= 1.0 by {
      assert 1.0 / drain * drain == 1.0;
      assert lots as real * drain >= 1.0 / drain * drain;
    }
    var shares := lots * 1_000_000;
    assert Qty(shares) == lots as real;
    var paid := Notional(shares, price);
    assert paid > 0.0;
    var capital := paid + paid * rate;
    assert paid * rate > 0.0;
    assert paid - paid * rate == -(lots as real * drain);
    RoundTripCosts(capital, shares, price, rate);
  }

  /** A broker with cash alone after buying and selling the same shares at one price. */
  function RoundTrip(capital: real, shares: int, price: real, rate: real): BrokerState {
    var bought := Submit(BrokerState(capital, map[], map[]), "T", Buy, shares, price, rate, 0, 0).0;
    Submit(bought, "T", Sell, shares, price, rate, 1, 0).0
  }

  lemma RoundTripCosts(capital: real, shares: int, price: real, rate: real)
    requires shares > 0 && capital == Notional(shares, price) + Commission(shares, price, rate)
    ensures var bought := Submit(BrokerState(capital, map[], map[]), "T", Buy, shares, price, rate, 0, 0);
      && bought.1.status == Filled && Submit(bought.0, "T", Sell, shares, price, rate, 1, 0).1.status == Filled
      && RoundTrip(capital, shares, price, rate).cash == Notional(shares, price) - Commission(shares, price, rate)
  {
    hide Notional, Commission, BlendedAvg;
    var bought := Submit(BrokerState(capital, map[], map[]), "T", Buy, shares, price, rate, 0, 0).0;
    assert Held(bought, "T") == shares && bought.cash == 0.0;
  }
}

/** The in-memory broker: orders fill at once against ticker-level holdings and cash. */
module SimBrokers {
  import opened Common
  import opened Orders
  import opened Market
  import opened SimBrokerSpec

  datatype BrokerError = SharesNotPositive | NoPrice

  class SimBroker {
    const frames: map<string, Frame>
    const policy: FillPolicy
    var cash: real
    var day: int
    var holdings: map<string, Holding>
    var orders: map<Id, Order>
    var nextId: nat

    function State(): BrokerState
      reads this
    {
      BrokerState(cash, holdings, orders)
    }

    /** Order numbers are handed out in sequence. */
    ghost predicate Valid()
      reads this
    {
      forall id :: id in orders ==> id < nextId
    }

    constructor (frames: map<string, Frame>, initialCash: real, policy: FillPolicy)
      ensures Valid() && State() == BrokerState(initialCash, map[], map[])
      ensures this.frames == frames && this.policy == policy && day == 0
    {
      this.frames, this.policy := frames, policy;
      cash, day, holdings, orders, nextId := initialCash, 0, map[], map[], 1;
    }

    method SetDate(value: int)
      modifies this`day
      ensures day == value
    {
      day := value;
    }

    /** Place a market order; it fills or is rejected at once, or the call raises. */
    method Submit(ticker: string, side: Side, shares: int) returns (r: Outcome<BrokerError>, o: Order)
      requires Valid()
      modifies this`cash, this`holdings, this`orders, this`nextId
      ensures Valid()
      ensures r.Raise? <==> shares <= 0 || ExecutionPrice(frames, policy, ticker, side, day).None?
      ensures r.Raise? ==> State() == old(State())
      ensures r.Pass? ==>
        var (price, date) := ExecutionPrice(frames, policy, ticker, side, day).value;
        && o.id !in old(orders) && o.id in orders
        && (State(), o) == SimBrokerSpec.Submit(old(State()), ticker, side, shares, price, policy.commissionRate, o.id, date)
    {
      if shares <= 0 { return Raise(SharesNotPositive), RejectedOrder(0, ticker, side, shares, 0.0); }
      var quote := ExecutionPrice(frames, policy, ticker, side, day);
      if quote.None? { return Raise(NoPrice), RejectedOrder(0, ticker, side, shares, 0.0); }
      var (price, date) := quote.value;
      var id := nextId;
      nextId := nextId + 1;
      if TurnedDown(State(), ticker, side, shares, price, policy.commissionRate) {
        o := RejectedOrder(id, ticker, side, shares, price);
      } else {
        var commission := Commission(shares, price, policy.commissionRate);
        ApplyFillToHoldings(ticker, side, shares, price, commission);
        o := FilledOrder(id, ticker, side, shares, price, policy.commissionRate, date);
      }
      orders := orders[id := o];
      r := Pass;
    }

    method ApplyFillToHoldings(ticker: string, side: Side, shares: int, price: real, commission: real)
      modifies this`cash, this`holdings
      ensures State() == if side == Buy then AfterBuy(old(State()), ticker, shares, price, commission)
                         else AfterSell(old(State()), ticker, shares, price, commission)
    {
      var row := if ticker in holdings then holdings[ticker] else Holding(0, 0.0);
      if side == Buy {
        var now := row.shares + shares;
        var avg := if now != 0 then BlendedAvg(row.shares, row.avgCost, shares, price) else 0.0;
        cash := cash - (Notional(shares, price) + commission);
        holdings := holdings[ticker := Holding(now, avg)];
        return;
      }
      var now := row.shares - shares;
      cash := cash + (Notional(shares, price) - commission);
      if now <= 0 || ticker !in holdings {
        holdings := holdings - {ticker};
      } else {
        holdings := holdings[ticker := row.(shares := now)];
      }
    }
  }
}
