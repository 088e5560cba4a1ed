/** Polling one order in many steps or in one: what the fill accounting makes of it. */
module Chunking {
  import opened Common
  import opened Orders
  import opened LedgerSpec
  import opened LedgerFacts

  /** Feed the reports of one order to the ledger, in turn, until one raises. */
  function PollAll(s: LedgerState, eid: Id, reports: seq<Order>, newId: Id): Result<LedgerState, LedgerError>
    decreases |reports|
  {
    if reports == [] then Ok(s)
    else match ApplyFill(s, eid, reports[0], newId)
         case Err(error) => Err(error)
         case Ok(s') => PollAll(s', eid, reports[1..], newId)
  }

  function Money(filled: int, avg: real): real { Qty(filled) * avg }

  /** One report may follow another: shares grow by nothing or by at least two units, the average price
      changes only together with the shares, and the money spent grows with the shares. */
  predicate Follows(filled: int, avg: real, o: Order) {
    || (o.filled == filled && (o.avg == avg || filled == 0))
    || (o.filled >= filled + 2 && Money(o.filled, o.avg) > Money(filled, avg))
  }

  /** Well-behaved cumulative reports with positive prices, from what was reported before. */
  predicate GoodReports(filled: int, avg: real, reports: seq<Order>)
    decreases |reports|
  {
    reports == [] || (reports[0].avg > 0.0 && Follows(filled, avg, reports[0]) && GoodReports(reports[0].filled, reports[0].avg, reports[1..]))
  }

  function Last(reports: seq<Order>): Order
    requires reports != []
  {
    reports[|reports| - 1]
  }

  /** The figures of a position that must not depend on how its fills were cut up. */
  datatype Figures = Figures(bought: int, sold: int, held: int, cost: real, pnl: real)

  function FiguresOf(p: Position): Figures {
    Figures(p.openedShares, p.closedShares, p.openShares, Qty(p.openShares) * p.avg, p.pnl)
  }

  function FiguresAt(s: LedgerState, pid: Id): Figures {
    if pid in s.positions then
      FiguresOf(s.positions[pid])
    else Figures(0, 0, 0, 0.0, 0.0)
  }

  /** The execution `eid` of side `side` aims at position `pid`, which a first buy fill may still have to create. */
  ghost predicate AimsAt(s: LedgerState, eid: Id, side: Side, pid: Id) {
    && eid in s.executions
    && var e := s.executions[eid];
    && e.side == side && e.applied >= 0
    && (e.position == Some(pid) || (e.position.None? && pid !in s.positions && side == Buy))
    && (pid in s.positions ==> s.positions[pid].entity == e.entity && s.positions[pid].ticker == e.ticker && s.positions[pid].openShares >= 0)
  }

  // ---- what the reports alone say ------------------------------------------------

  /** What the ledger has on record of an order: units booked, the average price last reported, and the average price reported
      when those units were booked. */
  datatype Tally = Tally(applied: int, recorded: real, booked: real)

  function TallyOf(e: Execution): Tally { Tally(e.applied, e.avg, e.avg) }

  /** Only a step of more than one unit is booked. */
  predicate Books(t: Tally, o: Order) { o.filled - t.applied > EPSILON }

  /** The average price a booked report stands for: its own, else the recorded one, else the order's. */
  function Reported(t: Tally, o: Order): real { OrElse(OrElse(o.avg, t.recorded), o.price) }

  /** A report that is not booked still replaces the average price. */
  function After(t: Tally, o: Order): Tally {
    if Books(t, o) then Tally(o.filled, Reported(t, o), Reported(t, o)) else t.(recorded := OrElse(o.avg, t.recorded))
  }

  function AfterAll(t: Tally, reports: seq<Order>): Tally
    decreases |reports|
  {
    if reports == [] then t else AfterAll(After(t, reports[0]), reports[1..])
  }

  /** The money reported grows with the units. */
  predicate Grows(t: Tally, o: Order) { Money(o.filled, Reported(t, o)) > Money(t.applied, t.recorded) }

  /** The new units have a positive price. */
  predicate HasPrice(t: Tally, o: Order) { Books(t, o) ==> Grows(t, o) || Reported(t, o) > 0.0 }

  predicate Priced(t: Tally, reports: seq<Order>)
    decreases |reports|
  {
    reports == [] || (HasPrice(t, reports[0]) && Priced(After(t, reports[0]), reports[1..]))
  }

  /** The average price the booked units are taken to have cost: the recorded one, unless the new units would then cost nothing. */
  function Basis(t: Tally, o: Order): real { if Grows(t, o) then t.recorded else Reported(t, o) }

  /** The money a booked report stands for. */
  function Spent(t: Tally, o: Order): real { Money(o.filled, Reported(t, o)) - Money(t.applied, Basis(t, o)) }

  function SpentInAll(t: Tally, reports: seq<Order>): real
    decreases |reports|
  {
    if reports == [] then 0.0
    else (if Books(t, reports[0]) then Spent(t, reports[0]) else 0.0) + SpentInAll(After(t, reports[0]), reports[1..])
  }

  /** By how much the booked units are revalued, without a trade, between one booking and the next, and after the last. */
  function Drift(t: Tally, reports: seq<Order>): real
    decreases |reports|
  {
    if reports == [] then Money(t.applied, t.recorded) - Money(t.applied, t.booked)
    else (if Books(t, reports[0]) then Money(t.applied, Basis(t, reports[0])) - Money(t.applied, t.booked) else 0.0)
         + Drift(After(t, reports[0]), reports[1..])
  }

  /** The money booked is what the cumulative money grew by, less the drift. */
  lemma {:induction false} DriftIsLost(t: Tally, reports: seq<Order>)
    ensures var end := AfterAll(t, reports);
      SpentInAll(t, reports) == Money(end.applied, end.recorded) - Money(t.applied, t.booked) - Drift(t, reports)
    decreases |reports|
  {
    hide Money, Basis;
    if reports != [] { DriftIsLost(After(t, reports[0]), reports[1..]); }
  }

  /** Booked units only grow, and money is booked only together with units. */
  lemma {:induction false} UnitsOnlyGrow(t: Tally, reports: seq<Order>)
    ensures AfterAll(t, reports).applied == t.applied || AfterAll(t, reports).applied >= t.applied + 2
    ensures AfterAll(t, reports).applied == t.applied ==> SpentInAll(t, reports) == 0.0
    decreases |reports|
  {
    hide Spent;
    if reports != [] { UnitsOnlyGrow(After(t, reports[0]), reports[1..]); }
  }

  lemma {:induction false} LastIsRecorded(t: Tally, reports: seq<Order>)
    requires reports != [] && Last(reports).avg != 0.0
    ensures AfterAll(t, reports).recorded == Last(reports).avg
    decreases |reports|
  {
    if |reports| > 1 { LastIsRecorded(After(t, reports[0]), reports[1..]); }
  }

  lemma OneReport(t: Tally, o: Order)
    ensures AfterAll(t, [o]) == After(t, o) && SpentInAll(t, [o]) == if Books(t, o) then Spent(t, o) else 0.0
    ensures Priced(t, [o]) <==> HasPrice(t, o)
  {
    assert [o][1..] == [];
  }

  /** When the reports book the same units as their last one alone, they book the same money exactly when they drift alike, up to
      what their recorded averages differ by. */
  lemma SameMoneyExactlyWhen(t: Tally, reports: seq<Order>)
    requires reports != [] && Books(t, Last(reports)) && AfterAll(t, reports).applied == Last(reports).filled
    ensures SpentInAll(t, reports) == Spent(t, Last(reports)) <==> DriftAlike(t, reports)
    ensures Last(reports).avg != 0.0 ==> (DriftAlike(t, reports) <==> Drift(t, reports) == Drift(t, [Last(reports)]))
  {
    hide Spent, SpentInAll, Drift, AfterAll, Money;
    var last := Last(reports);
    if last.avg != 0.0 {
      LastIsRecorded(t, reports);
      LastIsRecorded(t, [last]);
    }
    DriftIsLost(t, reports);
    DriftIsLost(t, [last]);
    OneReport(t, last);
  }

  /** All reports drift as the last one alone does, up to what their recorded averages differ by: those are the same when the last
      report names an average price. */
  predicate DriftAlike(t: Tally, reports: seq<Order>)
    requires reports != []
  {
    var last := Last(reports);
    Drift(t, reports) - Drift(t, [last]) == Money(last.filled, AfterAll(t, reports).recorded) - Money(last.filled, After(t, last).recorded)
  }

  /** One report drifts only when the money does not grow. */
  lemma OneReportDrift(t: Tally, o: Order)
    requires Books(t, o) && t.recorded == t.booked && Grows(t, o)
    ensures Drift(t, [o]) == 0.0
  {
    assert [o][1..] == [];
  }

  // ---- well-behaved reports ------------------------------------------------------

  /** Well-behaved reports are priced, do not drift, and all of what they report is booked. */
  lemma {:induction false} GoodReportsDoNotDrift(t: Tally, reports: seq<Order>)
    requires GoodReports(t.applied, t.recorded, reports) && t.applied >= 0
    requires t.booked == t.recorded || t.applied == 0
    ensures Priced(t, reports) && Drift(t, reports) == 0.0
    ensures reports != [] ==> AfterAll(t, reports).applied == Last(reports).filled
    decreases |reports|
  {
    MoneyOfNothing(t.recorded);
    MoneyOfNothing(t.booked);
    if reports != [] {
      GoodReportsDoNotDrift(After(t, reports[0]), reports[1..]);
    }
  }

  lemma MoneyOfNothing(avg: real)
    ensures Money(0, avg) == 0.0
  {
  }

  lemma {:induction false} LastFollows(filled: int, avg: real, reports: seq<Order>)
    requires reports != [] && filled >= 0 && GoodReports(filled, avg, reports)
    ensures Follows(filled, avg, Last(reports)) && Last(reports).avg > 0.0 && Last(reports).filled >= reports[0].filled >= filled
    decreases |reports|
  {
    if |reports| > 1 {
      var o := reports[0];
      LastFollows(o.filled, o.avg, reports[1..]);
      if filled == 0 && o.filled == 0 && Last(reports).filled > 0 {
        assert Money(0, avg) == 0.0 == Money(0, o.avg);
      }
    }
  }

  // ---- one report ----------------------------------------------------------------

  /** The execution stands at this tally. */
  ghost predicate StandsAt(s: LedgerState, eid: Id, t: Tally) {
    eid in s.executions && s.executions[eid].applied == t.applied >= 0 && s.executions[eid].avg == t.recorded
  }

  lemma QuotientTimes(a: real, b: real)
    requires b > 0.0
    ensures a / b * b == a
    ensures a > 0.0 <==> a / b > 0.0
  {
  }

  /** The price the ledger recovers for the new units is positive exactly when the report has a price, and times their number it
      is the money the report stands for. */
  lemma DeltaMoney(e: Execution, t: Tally, o: Order)
    requires e.applied == t.applied >= 0 && e.avg == t.recorded && Books(t, o)
    ensures DeltaPrice(e, o) > 0.0 <==> HasPrice(t, o)
    ensures Qty(o.filled - e.applied) * DeltaPrice(e, o) == Spent(t, o)
  {
    var units, avg := Qty(o.filled - e.applied), Reported(t, o);
    QuotientTimes(Money(o.filled, avg) - Money(e.applied, e.avg), units);
    assert units * avg == Money(o.filled, avg) - Money(e.applied, avg);
  }

  // ---- buys ----------------------------------------------------------------------

  /** The figures after buying `units` for `spent` in all. */
  function Bought(f: Figures, units: int, spent: real): Figures {
    f.(bought := f.bought + units, held := f.held + units, cost := f.cost + spent)
  }

  lemma NothingBought(f: Figures)
    ensures Bought(f, 0, 0.0) == f
  {
  }

  /** A buy books its units and its money, whether or not it counts as an add-buy. */
  lemma BuyFigures(p: Position, delta: int, price: real, addBuys: int)
    requires p.openShares + delta > EPSILON
    ensures var q := BuyInto(p, delta, price);
      && FiguresOf(q) == FiguresOf(q.(addBuys := addBuys)) == Bought(FiguresOf(p), delta, Qty(delta) * price)
      && q.openShares == p.openShares + delta && q.entity == p.entity && q.ticker == p.ticker
  {
    BuyCost(p, delta, price);
  }

  lemma NewFigures(entity: string, ticker: string, price: real, at: int)
    ensures var p := NewPosition(entity, ticker, price, at);
      FiguresOf(p) == Figures(0, 0, 0, 0.0, 0.0) && p.openShares == 0 && p.entity == entity && p.ticker == ticker
  {
    assert Qty(0) * price == 0.0;
  }

  /** One report of a buy passes exactly when it has a price; then it books its new units and their money, if it is booked at all. */
  lemma BuyStep(s: LedgerState, eid: Id, t: Tally, o: Order, pid: Id)
    requires AimsAt(s, eid, Buy, pid) && StandsAt(s, eid, t)
    ensures var r := ApplyFill(s, eid, o, pid);
      && (r.Ok? <==> HasPrice(t, o))
      && (r.Ok? ==>
            && AimsAt(r.value, eid, Buy, pid) && StandsAt(r.value, eid, After(t, o))
            && FiguresAt(r.value, pid) == if Books(t, o) then Bought(FiguresAt(s, pid), o.filled - t.applied, Spent(t, o)) else FiguresAt(s, pid))
  {
    hide DeltaPrice, BuyInto, NewPosition, Spent, Qty, FiguresOf, Bought, HasPrice;
    var e := s.executions[eid];
    NoPriceNeeded(t, o);
    if Books(t, o) {
      DeltaMoney(e, t, o);
      var price, delta := DeltaPrice(e, o), o.filled - e.applied;
      NewFigures(e.entity, e.ticker, price, o.filledAt);
      var p := if pid in s.positions then s.positions[pid] else NewPosition(e.entity, e.ticker, price, o.filledAt);
      BuyFigures(p, delta, price, BuyInto(p, delta, price).addBuys + 1);
      if HasPrice(t, o) {
        var r := ApplyFill(s, eid, o, pid);
        assert FiguresAt(s, pid) == FiguresOf(p);
        assert r.Ok? && FiguresAt(r.value, pid) == FiguresOf(r.value.positions[pid]);
        assert Qty(delta) * price == Spent(t, o);
        assert FiguresAt(r.value, pid) == Bought(FiguresOf(p), delta, Spent(t, o));
      }
    }
  }

  lemma NoPriceNeeded(t: Tally, o: Order)
    ensures !Books(t, o) ==> HasPrice(t, o)
  {
  }

  lemma {:induction false} BuysAddUp(s: LedgerState, eid: Id, t: Tally, reports: seq<Order>, pid: Id)
    requires AimsAt(s, eid, Buy, pid) && StandsAt(s, eid, t)
    ensures var r := PollAll(s, eid, reports, pid);
      && (r.Ok? <==> Priced(t, reports))
      && (r.Ok? ==> FiguresAt(r.value, pid) == Bought(FiguresAt(s, pid), AfterAll(t, reports).applied - t.applied, SpentInAll(t, reports)))
    decreases |reports|
  {
    hide AimsAt, FiguresAt, Spent, ApplyFill, StandsAt, HasPrice;
    NothingBought(FiguresAt(s, pid));
    if reports != [] {
      BuyStep(s, eid, t, reports[0], pid);
      if HasPrice(t, reports[0]) {
        BuysAddUp(ApplyFill(s, eid, reports[0], pid).value, eid, After(t, reports[0]), reports[1..], pid);
      }
    }
  }

  /** Polling a buy raises exactly when a booked report has no price. When nothing is raised, all reports come to the same as
      the last alone exactly when they book the same units and the booked units are revalued by the same amount; when the last
      report alone is not booked, exactly when none is. The reports alone decide that. A single report whose money grows revalues
      nothing. */
  lemma BuyPollsAgreeExactlyWhen(s: LedgerState, eid: Id, reports: seq<Order>, pid: Id)
    requires AimsAt(s, eid, Buy, pid) && reports != []
    ensures var t, last := TallyOf(s.executions[eid]), Last(reports);
      var many, one := PollAll(s, eid, reports, pid), ApplyFill(s, eid, last, pid);
      && (many.Ok? <==> Priced(t, reports)) && (one.Ok? <==> HasPrice(t, last))
      && (many.Ok? && one.Ok? ==>
            (FiguresAt(many.value, pid) == FiguresAt(one.value, pid) <==>
               if Books(t, last) then AfterAll(t, reports).applied == last.filled && DriftAlike(t, reports)
               else AfterAll(t, reports).applied == t.applied))
      && (Books(t, last) && last.avg != 0.0 && AfterAll(t, reports).applied == last.filled ==>
            (DriftAlike(t, reports) <==> Drift(t, reports) == Drift(t, [last])))
      && (Books(t, last) && Grows(t, last) ==> Drift(t, [last]) == 0.0)
  {
    hide PollAll, ApplyFill, AfterAll, Drift, DriftAlike, SpentInAll, Spent, Grows, FiguresAt, Priced, HasPrice;
    var t, last := TallyOf(s.executions[eid]), Last(reports);
    OneReport(t, last);
    BuysAddUp(s, eid, t, reports, pid);
    BuyStep(s, eid, t, last, pid);
    UnitsOnlyGrow(t, reports);
    if Books(t, last) {
      if AfterAll(t, reports).applied == last.filled { SameMoneyExactlyWhen(t, reports); }
      if Grows(t, last) { OneReportDrift(t, last); }
    }
  }

  /** A report that is not booked, between two that are, comes to nothing exactly when it repeats the average price. */
  lemma DeferredReportExactlyWhen(s: LedgerState, eid: Id, first: Order, second: Order, pid: Id)
    requires AimsAt(s, eid, Buy, pid) && first.avg > 0.0 && second.avg > 0.0
    requires var t := TallyOf(s.executions[eid]);
      && !Books(t, first) && Books(t, second)
      && Money(second.filled, second.avg) > Money(t.applied, t.recorded) && Money(second.filled, second.avg) > Money(t.applied, first.avg)
    ensures var e := s.executions[eid]; var many, one := PollAll(s, eid, [first, second], pid), ApplyFill(s, eid, second, pid);
      && many.Ok? && one.Ok?
      && (FiguresAt(many.value, pid) == FiguresAt(one.value, pid) <==> e.applied == 0 || first.avg == e.avg)
  {
    hide PollAll, ApplyFill, FiguresAt;
    var t := TallyOf(s.executions[eid]);
    assert [first, second][1..] == [second] && Last([first, second]) == second;
    OneReport(t, second);
    OneReport(After(t, first), second);
    BuyPollsAgreeExactlyWhen(s, eid, [first, second], pid);
    MoneyTells(t.applied, first.avg, t.recorded);
    assert [second][1..] == [];
  }

  lemma MoneyTells(units: int, a: real, b: real)
    requires units >= 0
    ensures Money(units, a) == Money(units, b) <==> units == 0 || a == b
  {
    assert Money(units, a) - Money(units, b) == Qty(units) * (a - b);
  }

  /** However a buy order's well-behaved cumulative reports are spaced, the position ends as if only the last had been polled. */
  lemma BuyChunkingDoesNotMatter(s: LedgerState, eid: Id, reports: seq<Order>, pid: Id)
    requires AimsAt(s, eid, Buy, pid) && reports != []
    requires GoodReports(s.executions[eid].applied, s.executions[eid].avg, reports)
    ensures var many := PollAll(s, eid, reports, pid); var one := ApplyFill(s, eid, Last(reports), pid);
      many.Ok? && one.Ok? && FiguresAt(many.value, pid) == FiguresAt(one.value, pid)
  {
    hide PollAll, ApplyFill, FiguresAt, AfterAll, Drift, GoodReports, Money, Priced;
    var t := TallyOf(s.executions[eid]);
    LastFollows(t.applied, t.recorded, reports);
    GoodReportsDoNotDrift(t, reports);
    OneReport(t, Last(reports));
    BuyPollsAgreeExactlyWhen(s, eid, reports, pid);
  }

  // ---- sells ---------------------------------------------------------------------

  /** The figures after selling `units` for `received` in all from shares that cost `avg`; a last unit is dropped. */
  function Sold(f: Figures, units: int, received: real, avg: real): Figures {
    var sold := Min(units, f.held);
    var rest := if units > 0 && f.held - sold <= EPSILON then 0 else f.held - sold;
    Figures(f.bought, f.sold + sold, rest, Qty(rest) * avg, f.pnl + received - Qty(sold) * avg)
  }

  lemma NothingSold(p: Position)
    requires p.openShares >= 0
    ensures Sold(FiguresOf(p), 0, 0.0, p.avg) == FiguresOf(p)
  {
    assert Qty(0) * p.avg == 0.0;
  }

  /** The ledger lets a sale of one unit too many pass, and books all but that unit. */
  function Excess(units: int, open: int, price: real): real { if units > open then Money(1, price) else 0.0 }

  lemma SellFigures(p: Position, delta: int, price: real)
    requires 0 < delta <= p.openShares + 1
    ensures var q := SellFrom(p, delta, price);
      FiguresOf(q) == Sold(FiguresOf(p), delta, Qty(delta) * price - Excess(delta, p.openShares, price), p.avg) && q.openShares >= 0
      && q.entity == p.entity && q.ticker == p.ticker && q.avg == p.avg && q.openShares == AfterSale(p.openShares, delta)
  {
    var sold := Min(delta, p.openShares);
    SplitGain(Qty(sold), price, p.avg);
    if delta > p.openShares { SplitSum(Qty(sold), Qty(1), price); }
  }

  function AfterSale(open: int, units: int): int { if open - units <= EPSILON then 0 else open - units }

  lemma SplitGain(q: real, price: real, avg: real)
    ensures q * (price - avg) == q * price - q * avg
  {
  }

  lemma SplitSum(a: real, b: real, c: real)
    ensures (a + b) * c == a * c + b * c
  {
  }

  /** The price of the units a booked report brings. */
  function PriceOf(t: Tally, o: Order): real
    requires Books(t, o)
  {
    Spent(t, o) / Qty(o.filled - t.applied)
  }

  lemma PriceIsRecovered(e: Execution, t: Tally, o: Order)
    requires e.applied == t.applied >= 0 && e.avg == t.recorded && Books(t, o)
    ensures DeltaPrice(e, o) == PriceOf(t, o)
  {
    hide DeltaPrice, Spent;
    DeltaMoney(e, t, o);
    QuotientTimes(Spent(t, o), Qty(o.filled - t.applied));
    SameQuotient(Qty(o.filled - t.applied), DeltaPrice(e, o), PriceOf(t, o));
  }

  lemma SameQuotient(q: real, a: real, b: real)
    requires q > 0.0 && q * a == q * b
    ensures a == b
  {
    assert q * (a - b) == 0.0;
  }

  /** What is open after a report. */
  function Left(open: int, t: Tally, o: Order): int { if Books(t, o) then AfterSale(open, o.filled - t.applied) else open }

  predicate Passes(open: int, t: Tally, o: Order) { Books(t, o) ==> o.filled - t.applied <= open + 1 }

  /** One report of a sale passes exactly when it has a price and sells at most one unit more than is open; then its new units, their money and
      the profit on them are booked. */
  lemma SellStep(s: LedgerState, eid: Id, t: Tally, o: Order, pid: Id)
    requires AimsAt(s, eid, Sell, pid) && pid in s.positions && StandsAt(s, eid, t)
    ensures var r, p := ApplyFill(s, eid, o, pid), s.positions[pid];
      && (r.Ok? <==> HasPrice(t, o) && Passes(p.openShares, t, o))
      && (r.Ok? ==>
            && AimsAt(r.value, eid, Sell, pid) && pid in r.value.positions && StandsAt(r.value, eid, After(t, o))
            && r.value.positions[pid].avg == p.avg && r.value.positions[pid].openShares == Left(p.openShares, t, o)
            && FiguresAt(r.value, pid) ==
                 if Books(t, o)
                 then Sold(FiguresAt(s, pid), o.filled - t.applied, Spent(t, o) - Excess(o.filled - t.applied, p.openShares, PriceOf(t, o)), p.avg)
                 else FiguresAt(s, pid))
  {
    hide DeltaPrice, SellFrom, Sold, Spent, Qty, FiguresOf, Excess, PriceOf, AfterSale, HasPrice;
    var e, p := s.executions[eid], s.positions[pid];
    NoPriceNeeded(t, o);
    if Books(t, o) {
      DeltaMoney(e, t, o);
      PriceIsRecovered(e, t, o);
      var delta, price := o.filled - e.applied, DeltaPrice(e, o);
      if delta <= p.openShares + 1 && HasPrice(t, o) {
        SellFigures(p, delta, price);
        var r := ApplyFill(s, eid, o, pid);
        assert r.Ok? && r.value.positions[pid] == SellFrom(p, delta, price);
        assert FiguresAt(r.value, pid) == FiguresOf(SellFrom(p, delta, price));
        assert Qty(delta) * price == Spent(t, o);
      }
    }
  }

  /** Every report passes, given what the ones before left open. */
  predicate AllPass(open: int, t: Tally, reports: seq<Order>)
    decreases |reports|
  {
    reports == [] || (Passes(open, t, reports[0]) && AllPass(Left(open, t, reports[0]), After(t, reports[0]), reports[1..]))
  }

  lemma {:induction false} PollsPass(s: LedgerState, eid: Id, t: Tally, reports: seq<Order>, pid: Id)
    requires AimsAt(s, eid, Sell, pid) && pid in s.positions && StandsAt(s, eid, t)
    ensures PollAll(s, eid, reports, pid).Ok? <==> Priced(t, reports) && AllPass(s.positions[pid].openShares, t, reports)
    decreases |reports|
  {
    hide ApplyFill, FiguresAt, Sold, Spent, Passes, Left, HasPrice;
    if reports != [] {
      SellStep(s, eid, t, reports[0], pid);
      var r := ApplyFill(s, eid, reports[0], pid);
      if r.Ok? { PollsPass(r.value, eid, After(t, reports[0]), reports[1..], pid); }
    }
  }

  /** After the first `i` reports exactly one unit was left open, and more is sold after them. */
  predicate LeavesOne(open: int, t: Tally, reports: seq<Order>, i: nat)
    requires i <= |reports|
  {
    t.applied < AfterAll(t, reports[..i]).applied == t.applied + open - 1 < AfterAll(t, reports).applied
  }

  lemma {:induction false} PrefixUnits(t: Tally, reports: seq<Order>, i: nat)
    requires i <= |reports|
    ensures AfterAll(t, reports[..i]).applied <= AfterAll(t, reports).applied
    ensures AfterAll(t, reports[..i]).applied == t.applied || AfterAll(t, reports[..i]).applied >= t.applied + 2
    ensures AfterAll(t, reports[..i]).applied == AfterAll(t, reports).applied || AfterAll(t, reports).applied >= AfterAll(t, reports[..i]).applied + 2
    decreases |reports|
  {
    UnitsOnlyGrow(t, reports);
    UnitsOnlyGrow(t, reports[..i]);
    if i > 0 {
      assert reports[..i][0] == reports[0] && reports[..i][1..] == reports[1..][..i - 1];
      PrefixUnits(After(t, reports[0]), reports[1..], i - 1);
    }
  }

  lemma LeavesOneShifts(open: int, t: Tally, reports: seq<Order>, i: nat)
    requires reports != [] && 0 < i <= |reports|
    ensures LeavesOne(open, t, reports, i) <==>
      var a, rest := After(t, reports[0]), reports[1..];
      t.applied < AfterAll(a, rest[..i - 1]).applied == t.applied + open - 1 < AfterAll(a, rest).applied
  {
    assert reports[..i][0] == reports[0] && reports[..i][1..] == reports[1..][..i - 1];
  }

  /** All reports of a sale pass exactly when in all they sell at most one unit more than is open, and none but the last to be
      booked leaves a single unit open: that unit is dropped, and what is sold after it is too much. */
  lemma {:induction false} AllPassExactlyWhen(open: int, t: Tally, reports: seq<Order>)
    requires open >= 0
    ensures AllPass(open, t, reports) <==>
      AfterAll(t, reports).applied - t.applied <= open + 1 && forall i :: 0 <= i <= |reports| ==> !LeavesOne(open, t, reports, i)
    decreases |reports|
  {
    hide LeavesOne;
    if reports == [] {
      NeverAtStart(open, t, reports);
    } else {
      var o, rest := reports[0], reports[1..];
      var a, left := After(t, o), Left(open, t, o);
      AllPassExactlyWhen(left, a, rest);
      UnitsOnlyGrow(a, rest);
      NeverAtStart(open, t, reports);
      if !Books(t, o) || open - (o.filled - t.applied) >= 2 {
        forall i | 0 <= i <= |rest| ensures LeavesOne(open, t, reports, i + 1) <==> LeavesOne(left, a, rest, i) {
          LeavesOneShifted(open, t, reports, i);
        }
        assert (forall i :: 0 <= i <= |reports| ==> !LeavesOne(open, t, reports, i)) ==> forall i :: 0 <= i <= |rest| ==> !LeavesOne(left, a, rest, i) by {
          forall i | 0 <= i <= |rest| && LeavesOne(left, a, rest, i) ensures LeavesOne(open, t, reports, i + 1) {}
        }
        assert (forall i :: 0 <= i <= |rest| ==> !LeavesOne(left, a, rest, i)) ==> forall i :: 0 <= i <= |reports| ==> !LeavesOne(open, t, reports, i) by {
          forall i | 0 <= i <= |reports| && LeavesOne(open, t, reports, i) ensures i > 0 && LeavesOne(left, a, rest, i - 1) {}
        }
      } else if o.filled - t.applied <= open + 1 {
        NothingLeft(open, t, reports);
      }
    }
  }

  lemma NeverAtStart(open: int, t: Tally, reports: seq<Order>)
    ensures !LeavesOne(open, t, reports, 0)
  {
    assert reports[..0] == [];
  }

  lemma LeavesOneShifted(open: int, t: Tally, reports: seq<Order>, i: nat)
    requires reports != [] && i < |reports| && open >= 0
    requires !Books(t, reports[0]) || open - (reports[0].filled - t.applied) >= 2
    ensures LeavesOne(open, t, reports, i + 1) <==> LeavesOne(Left(open, t, reports[0]), After(t, reports[0]), reports[1..], i)
  {
    LeavesOneShifts(open, t, reports, i + 1);
    PrefixUnits(After(t, reports[0]), reports[1..], i);
  }

  /** A booked report that leaves at most one unit open must be the last that is booked. */
  lemma NothingLeft(open: int, t: Tally, reports: seq<Order>)
    requires reports != [] && Books(t, reports[0]) && open - 1 <= reports[0].filled - t.applied <= open + 1
    ensures var a, rest := After(t, reports[0]), reports[1..];
      AfterAll(a, rest).applied - a.applied <= 1 <==>
      AfterAll(t, reports).applied - t.applied <= open + 1 && forall i :: 0 <= i <= |reports| ==> !LeavesOne(open, t, reports, i)
    ensures var a, rest := After(t, reports[0]), reports[1..];
      AfterAll(a, rest).applied - a.applied <= 1 ==> forall i :: 0 <= i <= |rest| ==> !LeavesOne(0, a, rest, i)
  {
    hide LeavesOne;
    var a, rest := After(t, reports[0]), reports[1..];
    UnitsOnlyGrow(a, rest);
    if AfterAll(a, rest).applied == a.applied {
      forall i | 0 <= i <= |reports| ensures !LeavesOne(open, t, reports, i) {
        if i == 0 {
          NeverAtStart(open, t, reports);
        } else {
          LeavesOneShifts(open, t, reports, i);
          PrefixUnits(a, rest, i - 1);
        }
      }
      forall i | 0 <= i <= |rest| ensures !LeavesOne(0, a, rest, i) { LeavesNone(a, rest, i); }
    } else if a.applied == t.applied + open - 1 {
      LeavesOneShifts(open, t, reports, 1);
      assert rest[..0] == [];
      assert LeavesOne(open, t, reports, 1);
    }
  }

  lemma LeavesNone(t: Tally, reports: seq<Order>, i: nat)
    requires i <= |reports|
    ensures !LeavesOne(0, t, reports, i)
  {
    PrefixUnits(t, reports, i);
  }

  /** The price of the last units booked. */
  function LastPrice(t: Tally, reports: seq<Order>): real
    decreases |reports|
  {
    if reports == [] then 0.0
    else
      var a := After(t, reports[0]);
      if AfterAll(a, reports[1..]).applied > a.applied then LastPrice(a, reports[1..])
      else if Books(t, reports[0]) then PriceOf(t, reports[0]) else 0.0
  }

  /** What the sales of all reports bring: the money booked, without that of a unit too many. */
  function Received(open: int, t: Tally, reports: seq<Order>): real {
    SpentInAll(t, reports) - Excess(AfterAll(t, reports).applied - t.applied, open, LastPrice(t, reports))
  }

  lemma SoldTwice(f: Figures, a: int, ma: real, b: int, mb: real, avg: real)
    requires 2 <= a <= f.held - 2 && 2 <= b <= f.held - a + 1
    ensures Sold(Sold(f, a, ma, avg), b, mb, avg) == Sold(f, a + b, ma + mb, avg)
  {
    hide Qty;
    var more := Min(b, f.held - a);
    QtyAdds(a, more);
    SplitSum(Qty(a), Qty(more), avg);
    var twice, once := Sold(Sold(f, a, ma, avg), b, mb, avg), Sold(f, a + b, ma + mb, avg);
    assert twice.sold == once.sold && twice.held == once.held && twice.cost == once.cost;
    assert twice.pnl == f.pnl + ma - Qty(a) * avg + mb - Qty(more) * avg;
    assert once.pnl == f.pnl + (ma + mb) - Qty(a + more) * avg;
  }

  lemma HeldAt(s: LedgerState, pid: Id)
    requires pid in s.positions
    ensures FiguresAt(s, pid) == FiguresOf(s.positions[pid]) && FiguresAt(s, pid).held == s.positions[pid].openShares
  {
  }

  lemma {:induction false} SalesAddUp(s: LedgerState, eid: Id, t: Tally, reports: seq<Order>, pid: Id)
    requires AimsAt(s, eid, Sell, pid) && pid in s.positions && StandsAt(s, eid, t) && Priced(t, reports)
    requires AllPass(s.positions[pid].openShares, t, reports)
    ensures var r, p := PollAll(s, eid, reports, pid), s.positions[pid];
      r.Ok? && FiguresAt(r.value, pid) ==
        Sold(FiguresAt(s, pid), AfterAll(t, reports).applied - t.applied, Received(p.openShares, t, reports), p.avg)
    decreases |reports|
  {
    hide ApplyFill, Spent, Sold, FiguresOf, FiguresAt, PriceOf, Excess, AfterSale, Qty;
    var p := s.positions[pid];
    HeldAt(s, pid);
    NoExcess(p.openShares, LastPrice(t, reports));
    NothingSold(p);
    if reports != [] {
      var o, rest := reports[0], reports[1..];
      var a, left := After(t, o), Left(p.openShares, t, o);
      SellStep(s, eid, t, o, pid);
      var s' := ApplyFill(s, eid, o, pid).value;
      HeldAt(s', pid);
      SalesAddUp(s', eid, a, rest, pid);
      UnitsOnlyGrow(a, rest);
      if Books(t, o) {
        if AfterAll(a, rest).applied > a.applied {
          LastPriceIsLater(t, reports);
          AllPassExactlyWhen(left, a, rest);
          TwoSales(FiguresAt(s, pid), p.openShares, t, reports, p.avg);
        } else {
          NoExcess(left, LastPrice(a, rest));
          NothingSold(s'.positions[pid]);
        }
      } else if AfterAll(a, rest).applied > a.applied {
        LastPriceIsLater(t, reports);
      } else {
        NoExcess(p.openShares, LastPrice(a, rest));
      }
    }
  }

  lemma NoExcess(open: int, price: real)
    requires open >= 0
    ensures Excess(0, open, price) == 0.0
  {
  }

  /** A sale that leaves something to the ones after it. */
  lemma TwoSales(f: Figures, open: int, t: Tally, reports: seq<Order>, avg: real)
    requires reports != [] && f.held == open && Books(t, reports[0])
    requires var a, rest := After(t, reports[0]), reports[1..];
      var left := Left(open, t, reports[0]);
      a.applied + 2 <= AfterAll(a, rest).applied <= a.applied + left + 1
    ensures var o, a, rest := reports[0], After(t, reports[0]), reports[1..];
      var d, left := o.filled - t.applied, Left(open, t, o);
      Sold(Sold(f, d, Spent(t, o) - Excess(d, open, PriceOf(t, o)), avg), AfterAll(a, rest).applied - a.applied, Received(left, a, rest), avg)
      == Sold(f, AfterAll(t, reports).applied - t.applied, Received(open, t, reports), avg)
  {
    hide Spent, Sold, PriceOf, Money, LastPrice;
    var o, a, rest := reports[0], After(t, reports[0]), reports[1..];
    var d := o.filled - t.applied;
    SoldTwice(f, d, Spent(t, o), AfterAll(a, rest).applied - a.applied, Received(Left(open, t, o), a, rest), avg);
    LastPriceIsLater(t, reports);
  }

  lemma LastPriceIsLater(t: Tally, reports: seq<Order>)
    requires reports != [] && AfterAll(After(t, reports[0]), reports[1..]).applied > After(t, reports[0]).applied
    ensures LastPrice(t, reports) == LastPrice(After(t, reports[0]), reports[1..])
  {
  }

  /** Polling all reports of a sale raises exactly when a booked one has no price, when they sell more than one unit too many, or
      when one leaves a single unit open with more to come. When nothing is raised, all reports come to the same as the last alone exactly when both sell the
      same units and bring the same money. The reports and the open units alone decide that. */
  lemma SalePollsAgreeExactlyWhen(s: LedgerState, eid: Id, reports: seq<Order>, pid: Id)
    requires AimsAt(s, eid, Sell, pid) && pid in s.positions && reports != []
    ensures var t, open, last := TallyOf(s.executions[eid]), s.positions[pid].openShares, Last(reports);
      var many, one := PollAll(s, eid, reports, pid), ApplyFill(s, eid, last, pid);
      && (many.Ok? <==>
            Priced(t, reports) && AfterAll(t, reports).applied - t.applied <= open + 1 && forall i :: 0 <= i <= |reports| ==> !LeavesOne(open, t, reports, i))
      && (one.Ok? <==> !Books(t, last) || (HasPrice(t, last) && last.filled - t.applied <= open + 1))
      && (many.Ok? && one.Ok? ==>
            (FiguresAt(many.value, pid) == FiguresAt(one.value, pid) <==>
               && Min(AfterAll(t, reports).applied - t.applied, open) == Min(After(t, last).applied - t.applied, open)
               && Received(open, t, reports) == Received(open, t, [last])))
  {
    hide PollAll, ApplyFill, AfterAll, LeavesOne, SpentInAll, Spent, FiguresAt, Priced, HasPrice, Sold, Received, AllPass, After;
    var t, open, last := TallyOf(s.executions[eid]), s.positions[pid].openShares, Last(reports);
    OneReport(t, last);
    PollsPass(s, eid, t, reports, pid);
    PollsPass(s, eid, t, [last], pid);
    AllPassExactlyWhen(open, t, reports);
    UnitsOnlyGrow(t, reports);
    UnitsOnlyGrow(t, [last]);
    OnePoll(s, eid, last, pid);
    OnePasses(open, t, last);
    NoPriceNeeded(t, last);
    if Priced(t, reports) && Priced(t, [last]) && AllPass(open, t, reports) && AllPass(open, t, [last]) {
      SalesAddUp(s, eid, t, reports, pid);
      SalesAddUp(s, eid, t, [last], pid);
      AllPassExactlyWhen(open, t, [last]);
      HeldAt(s, pid);
      SoldAlike(FiguresAt(s, pid), AfterAll(t, reports).applied - t.applied, Received(open, t, reports),
                After(t, last).applied - t.applied, Received(open, t, [last]), s.positions[pid].avg, s.positions[pid]);
    }
  }

  lemma OnePoll(s: LedgerState, eid: Id, o: Order, pid: Id)
    ensures PollAll(s, eid, [o], pid) == ApplyFill(s, eid, o, pid)
  {
    hide ApplyFill;
    assert [o][1..] == [];
  }

  lemma OnePasses(open: int, t: Tally, o: Order)
    ensures AllPass(open, t, [o]) <==> o.filled - t.applied <= open + 1 || !Books(t, o)
  {
    assert [o][1..] == [];
  }

  lemma SoldAlike(f: Figures, a: int, ma: real, b: int, mb: real, avg: real, p: Position)
    requires f.held >= 0 && (a == 0 || 2 <= a <= f.held + 1) && (b == 0 || 2 <= b <= f.held + 1)
    ensures Sold(f, a, ma, avg) == Sold(f, b, mb, avg) <==> Min(a, f.held) == Min(b, f.held) && ma == mb
  {
    hide Qty;
  }

  /** However a sell order's well-behaved cumulative reports are spaced, the position ends as if only the last had been polled,
      as long as the order sells no more than is open. */
  lemma SellChunkingDoesNotMatter(s: LedgerState, eid: Id, reports: seq<Order>, pid: Id)
    requires AimsAt(s, eid, Sell, pid) && pid in s.positions && reports != []
    requires GoodReports(s.executions[eid].applied, s.executions[eid].avg, reports)
    requires Last(reports).filled - s.executions[eid].applied <= s.positions[pid].openShares
    ensures var many := PollAll(s, eid, reports, pid); var one := ApplyFill(s, eid, Last(reports), pid);
      many.Ok? && one.Ok? && FiguresAt(many.value, pid) == FiguresAt(one.value, pid)
  {
    hide PollAll, ApplyFill, FiguresAt, AfterAll, SpentInAll, Spent, GoodReports, LastPrice, PriceOf, LeavesOne, Priced;
    var t, open, last := TallyOf(s.executions[eid]), s.positions[pid].openShares, Last(reports);
    GoodReportsSpend(t, reports);
    forall i | 0 <= i <= |reports| ensures !LeavesOne(open, t, reports, i) { NeverOneShort(open, t, reports, i); }
    OneReport(t, last);
    SalePollsAgreeExactlyWhen(s, eid, reports, pid);
  }

  /** Well-behaved reports that sell one unit more than is open pass in one poll. Polled in turn they raise exactly when one of
      them leaves a single unit open, and else come to the same exactly when the last units went at the average price of all. */
  lemma OversellingByOneExactlyWhen(s: LedgerState, eid: Id, reports: seq<Order>, pid: Id)
    requires AimsAt(s, eid, Sell, pid) && pid in s.positions && reports != []
    requires GoodReports(s.executions[eid].applied, s.executions[eid].avg, reports)
    requires Last(reports).filled - s.executions[eid].applied == s.positions[pid].openShares + 1 >= 2
    ensures var t, open := TallyOf(s.executions[eid]), s.positions[pid].openShares;
      var many, one := PollAll(s, eid, reports, pid), ApplyFill(s, eid, Last(reports), pid);
      && one.Ok?
      && (many.Ok? <==> forall i :: 0 <= i < |reports| ==> !(reports[i].filled - t.applied == open - 1 > 0))
      && (many.Ok? ==> (FiguresAt(many.value, pid) == FiguresAt(one.value, pid) <==> LastPrice(t, reports) == PriceOf(t, Last(reports))))
  {
    hide PollAll, ApplyFill, FiguresAt, AfterAll, SpentInAll, Spent, GoodReports, LastPrice, PriceOf, LeavesOne, Priced, Money;
    var t, open, last := TallyOf(s.executions[eid]), s.positions[pid].openShares, Last(reports);
    GoodReportsSpend(t, reports);
    OneReport(t, last);
    SalePollsAgreeExactlyWhen(s, eid, reports, pid);
    if i :| 0 <= i < |reports| && reports[i].filled - t.applied == open - 1 > 0 {
      OneShort(open, t, reports, i);
      assert LeavesOne(open, t, reports, i + 1);
    } else {
      forall i | 0 <= i <= |reports| ensures !LeavesOne(open, t, reports, i) {
        if i == 0 { NeverAtStart(open, t, reports); } else { OneShort(open, t, reports, i - 1); }
      }
    }
    OneLastPrice(t, last);
    MoneyTells(1, LastPrice(t, reports), PriceOf(t, last));
  }

  lemma OneLastPrice(t: Tally, o: Order)
    requires Books(t, o)
    ensures LastPrice(t, [o]) == PriceOf(t, o)
  {
    assert [o][1..] == [];
  }

  /** Well-behaved reports book the money their last one does. */
  lemma GoodReportsSpend(t: Tally, reports: seq<Order>)
    requires GoodReports(t.applied, t.recorded, reports) && t.applied >= 0 && t.booked == t.recorded && reports != []
    ensures Priced(t, reports) && Priced(t, [Last(reports)]) && AfterAll(t, reports).applied == After(t, Last(reports)).applied == Last(reports).filled
    ensures SpentInAll(t, reports) == if Books(t, Last(reports)) then Spent(t, Last(reports)) else 0.0
  {
    hide GoodReports, AfterAll, Drift, Spent, Priced, Money, SpentInAll;
    var last := Last(reports);
    LastFollows(t.applied, t.recorded, reports);
    GoodReportsDoNotDrift(t, reports);
    OneReport(t, last);
    UnitsOnlyGrow(t, reports);
    if Books(t, last) {
      OneReportDrift(t, last);
      SameMoneyExactlyWhen(t, reports);
    }
  }

  lemma {:induction false} GoodPrefix(t: Tally, reports: seq<Order>, i: nat)
    requires GoodReports(t.applied, t.recorded, reports) && t.applied >= 0 && i < |reports|
    ensures AfterAll(t, reports[..i + 1]).applied == reports[i].filled
    decreases |reports|
  {
    var prefix := reports[..i + 1];
    assert prefix[0] == reports[0] && prefix[1..] == reports[1..][..i];
    if i > 0 { GoodPrefix(After(t, reports[0]), reports[1..], i - 1); }
  }

  lemma OneShort(open: int, t: Tally, reports: seq<Order>, i: nat)
    requires GoodReports(t.applied, t.recorded, reports) && t.applied >= 0 && i < |reports|
    requires AfterAll(t, reports).applied == t.applied + open + 1
    ensures LeavesOne(open, t, reports, i + 1) <==> reports[i].filled - t.applied == open - 1 > 0
  {
    GoodPrefix(t, reports, i);
  }

  lemma NeverOneShort(open: int, t: Tally, reports: seq<Order>, i: nat)
    requires i <= |reports| && AfterAll(t, reports).applied <= t.applied + open
    ensures !LeavesOne(open, t, reports, i)
  {
    PrefixUnits(t, reports, i);
  }

  // ---- where it fails ------------------------------------------------------------

  function Report(filled: int, avg: real, side: Side): Order { Order(0, "T", side, 10, 0.0, Partial, filled, avg, 0.0, 0) }

  /** A ledger with one execution that has applied `applied` units at `avg`. */
  function OneExecution(side: Side, positions: map<Id, Position>, position: Option<Id>, applied: int, avg: real): LedgerState {
    LedgerState(positions, map[0 := Execution(0, position, "E", "T", side, "entry", 0, 10, applied, applied, avg, PartialState)], map[], {})
  }

  function Holding(units: int, avg: real): Position {
    NewPosition("E", "T", 1.0, 0).(openedShares := units, openShares := units, avg := avg)
  }

  /** A step of a single unit is deferred, and the average price it carries replaces the one the applied part was
      booked at: the next fill is then priced wrongly, and the cost basis depends on the polls. Here 2 units at 1.0
      are booked; polling 3 units at 2.0 and then 5 at 2.0 ends at a lower cost than polling the 5 at once. */
  lemma SingleUnitStepsShiftTheCost()
    ensures var s := OneExecution(Buy, map[7 := Holding(2, 1.0)], Some(7), 2, 1.0);
      var direct := ApplyFill(s, 0, Report(5, 2.0, Buy), 7);
      var deferred := ApplyFill(s, 0, Report(3, 2.0, Buy), 7);
      && direct.Ok? && FiguresAt(direct.value, 7) == Figures(5, 0, 5, 0.00001, 0.0)
      && deferred.Ok? && deferred.value.positions == s.positions
      && var stepped := ApplyFill(deferred.value, 0, Report(5, 2.0, Buy), 7);
      && stepped.Ok? && FiguresAt(stepped.value, 7) == Figures(5, 0, 5, 0.000008, 0.0)
  {
    var s := OneExecution(Buy, map[7 := Holding(2, 1.0)], Some(7), 2, 1.0);
    var s' := ApplyFill(s, 0, Report(3, 2.0, Buy), 7).value;
    FillFive(s, 1.0, 8.0 / 3.0);
    FillFive(s', 2.0, 2.0);
  }

  lemma FillFive(s: LedgerState, avg: real, price: real)
    requires s.executions.Keys == {0} && s.positions == map[7 := Holding(2, 1.0)] && s.intents == map[]
    requires var e := s.executions[0]; e.side == Buy && e.applied == 2 && e.avg == avg && e.entity == "E" && e.ticker == "T" && e.position == Some(7)
    requires avg > 0.0 && price > 0.0 && 3.0 * price == 10.0 - 2.0 * avg
    ensures var r := ApplyFill(s, 0, Report(5, 2.0, Buy), 7);
            r.Ok? && FiguresAt(r.value, 7) == Figures(5, 0, 5, 0.000002 + 0.000003 * price, 0.0)
  {
    var e, o := s.executions[0], Report(5, 2.0, Buy);
    assert SplitPrice(5, 2.0, 2, avg) == price by {
      assert Qty(5) * 2.0 - Qty(2) * avg == 0.000003 * price;
      assert Qty(5 - 2) == 0.000003;
    }
    assert DeltaPrice(e, o) == price;
    BuyCost(Holding(2, 1.0), 3, price);
  }

  /** An order that sells one unit more than is open goes through in one poll but raises when it comes in two:
      the residue of the first part was dropped. */
  lemma OversellingByOneDependsOnPolls()
    ensures var s := OneExecution(Sell, map[7 := Holding(5, 1.0)], Some(7), 0, 1.0);
      var first := ApplyFill(s, 0, Report(4, 1.0, Sell), 7);
      && ApplyFill(s, 0, Report(6, 1.0, Sell), 7).Ok?
      && first.Ok? && ApplyFill(first.value, 0, Report(6, 1.0, Sell), 7) == Err(SellExceedsOpen)
  {
    hide Qty, SplitPrice, BlendedAvg, Gain;
    var s := OneExecution(Sell, map[7 := Holding(5, 1.0)], Some(7), 0, 1.0);
    UnitPrice(s.executions[0], Report(4, 1.0, Sell));
    UnitPrice(s.executions[0], Report(6, 1.0, Sell));
    var s' := ApplyFill(s, 0, Report(4, 1.0, Sell), 7).value;
    assert s'.positions[7].openShares == 0 && s'.executions[0].applied == 4 && s'.executions[0].avg == 1.0;
    UnitPrice(s'.executions[0], Report(6, 1.0, Sell));
  }

  lemma UnitPrice(e: Execution, o: Order)
    requires o.filled > e.applied && o.avg == 1.0 && e.avg == 1.0
    ensures DeltaPrice(e, o) == 1.0
  {
    var q := Qty(o.filled - e.applied);
    assert Qty(o.filled) * 1.0 - Qty(e.applied) * 1.0 == q;
    assert q / q == 1.0;
  }
}
