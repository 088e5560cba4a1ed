/** Cutting an equity curve into monthly or quarterly returns. */
module Segments {
  import opened Common
  import opened Sorting

  type Month = m: int | 1 <= m <= 12 witness 1

  type Day = d: int | 1 <= d <= 31 witness 1

  datatype Date = Date(year: int, month: Month, day: Day)

  datatype Granularity = Monthly | Quarterly

  datatype Label = MonthOf(year: int, month: Month) | QuarterOf(year: int, quarter: int)

  /** A point of the curve as handed in; a date that does not parse is None. */
  datatype Point = Point(date: Option<Date>, equity: real)

  datatype Row = Row(date: Date, name: Label, equity: real)

  datatype Group = Group(name: Label, rows: seq<Row>)

  datatype Segment = Segment(
    name: Label, returnPct: real, startEquity: real, endEquity: real, startDate: Date, endDate: Date, tradingDays: nat)

  datatype SegmentError = TooFewPoints | InitialNotPositive | UnsupportedGranularity | InvalidDate | EquityNotPositive

  function ParseGranularity(text: string): Option<Granularity> {
    if text == "monthly" then Some(Monthly) else if text == "quarterly" then Some(Quarterly) else None
  }

  function SegmentLabel(d: Date, mode: Granularity): Label {
    if mode == Monthly then MonthOf(d.year, d.month) else QuarterOf(d.year, (d.month - 1) / 3 + 1)
  }

  /** The label a segment gets when months are looked at as quarters. */
  function Coarser(name: Label): Label {
    match name
    case MonthOf(year, month) => QuarterOf(year, (month - 1) / 3 + 1)
    case QuarterOf(_, _) => name
  }

  /** Labels in calendar order. */
  function LabelIndex(name: Label): int {
    match name
    case MonthOf(year, month) => year * 12 + month - 1
    case QuarterOf(year, quarter) => year * 4 + quarter - 1
  }

  predicate NotAfter(a: Date, b: Date) {
    a.year < b.year || (a.year == b.year && (a.month < b.month || (a.month == b.month && a.day <= b.day)))
  }

  function EarlierRow(): (Row, Row) -> bool { (a: Row, b: Row) => NotAfter(a.date, b.date) }

  /** What the checks on the points complain about, in the order they are made. */
  function PointComplaint(points: seq<Point>): Option<SegmentError> {
    if points == [] then None
    else if points[0].date.None? then Some(InvalidDate)
    else if points[0].equity <= 0.0 then Some(EquityNotPositive)
    else PointComplaint(points[1..])
  }

  function Complaint(points: seq<Point>, granularity: string, initialEquity: real): Option<SegmentError> {
    if |points| < 2 then Some(TooFewPoints)
    else if initialEquity <= 0.0 then Some(InitialNotPositive)
    else if ParseGranularity(granularity).None? then Some(UnsupportedGranularity)
    else PointComplaint(points)
  }

  predicate Clean(points: seq<Point>) {
    forall i :: 0 <= i < |points| ==> points[i].date.Some? && points[i].equity > 0.0
  }

  lemma {:induction false} CleanWhenNoComplaint(points: seq<Point>)
    ensures PointComplaint(points).None? <==> Clean(points)
  {
    if points != [] {
      CleanWhenNoComplaint(points[1..]);
      assert Clean(points) ==> Clean(points[1..]);
    }
  }

  function RowOf(p: Point, mode: Granularity): Row
    requires p.date.Some?
  {
    Row(p.date.value, SegmentLabel(p.date.value, mode), p.equity)
  }

  function Rows(points: seq<Point>, mode: Granularity): seq<Row>
    requires Clean(points)
  {
    seq(|points|, i requires 0 <= i < |points| => RowOf(points[i], mode))
  }

  /** The curve in date order. */
  function Curve(points: seq<Point>, mode: Granularity): (curve: seq<Row>)
    requires Clean(points)
  {
    StableSort(Rows(points, mode), EarlierRow())
  }

  /** Add one row to the groups: to the last of them when its label is the same. */
  function AddRow(groups: seq<Group>, row: Row): seq<Group> {
    if groups == [] || groups[|groups| - 1].name != row.name then groups + [Group(row.name, [row])]
    else groups[|groups| - 1 := Group(row.name, groups[|groups| - 1].rows + [row])]
  }

  function GroupRows(rows: seq<Row>): seq<Group> {
    if rows == [] then [] else AddRow(GroupRows(rows[..|rows| - 1]), rows[|rows| - 1])
  }

  function Flatten(groups: seq<Group>): seq<Row> {
    if groups == [] then [] else Flatten(groups[..|groups| - 1]) + groups[|groups| - 1].rows
  }

  /** A group with at least one row, every row under its label and with positive equity. */
  ghost predicate SoundGroup(g: Group) {
    g.rows != [] && forall j :: 0 <= j < |g.rows| ==> g.rows[j].name == g.name && g.rows[j].equity > 0.0
  }

  ghost predicate WellGrouped(groups: seq<Group>) {
    forall i :: 0 <= i < |groups| ==> SoundGroup(groups[i])
  }

  function LastEquity(g: Group): (equity: real)
    requires SoundGroup(g)
    ensures equity > 0.0
  {
    g.rows[|g.rows| - 1].equity
  }

  /** The equity at the end of the first k groups. */
  function EquityAfter(groups: seq<Group>, k: nat, initialEquity: real): (equity: real)
    requires k <= |groups| && WellGrouped(groups) && initialEquity > 0.0
    ensures equity > 0.0
  {
    if k == 0 then initialEquity else LastEquity(groups[k - 1])
  }

  function Ratio(a: real, b: real): real
    requires b != 0.0
  {
    a / b
  }

  function ReturnPct(start: real, end: real): real
    requires start != 0.0
  {
    (Ratio(end, start) - 1.0) * 100.0
  }

  /** The segment a group gives after `start`. */
  function SegmentFrom(g: Group, start: real): (segment: Segment)
    requires SoundGroup(g) && start > 0.0
    ensures segment.name == g.name
  {
    Segment(g.name, ReturnPct(start, LastEquity(g)), start, LastEquity(g), g.rows[0].date, g.rows[|g.rows| - 1].date, |g.rows|)
  }

  // ---- grouping partitions the curve ---------------------------------------------

  lemma SoundWithRow(g: Group, row: Row)
    requires SoundGroup(g) && row.equity > 0.0 && row.name == g.name
    ensures SoundGroup(Group(row.name, g.rows + [row]))
  {
  }

  lemma SoundAlone(row: Row)
    requires row.equity > 0.0
    ensures SoundGroup(Group(row.name, [row]))
  {
  }

  lemma AddRowAppends(groups: seq<Group>, row: Row)
    requires WellGrouped(groups) && row.equity > 0.0
    ensures var next := AddRow(groups, row);
      next != [] && WellGrouped(next) && Flatten(next) == Flatten(groups) + [row] && next[|next| - 1].name == row.name
  {
    hide SoundGroup;
    var next, n := AddRow(groups, row), |groups| - 1;
    if groups == [] || groups[n].name != row.name {
      SoundAlone(row);
      assert next[..|groups|] == groups;
    } else {
      SoundWithRow(groups[n], row);
      assert next[..n] == groups[..n];
      assert Flatten(groups[..n]) + (groups[n].rows + [row]) == Flatten(groups[..n]) + groups[n].rows + [row];
    }
  }

  ghost predicate Positive(rows: seq<Row>) {
    forall i :: 0 <= i < |rows| ==> rows[i].equity > 0.0
  }

  lemma {:induction false} GroupingPartitions(rows: seq<Row>)
    requires Positive(rows)
    ensures WellGrouped(GroupRows(rows)) && Flatten(GroupRows(rows)) == rows
    ensures rows != [] ==> GroupRows(rows) != [] && GroupRows(rows)[|GroupRows(rows)| - 1].name == rows[|rows| - 1].name
  {
    hide AddRow, WellGrouped;
    if rows != [] {
      GroupingPartitions(rows[..|rows| - 1]);
      AddRowAppends(GroupRows(rows[..|rows| - 1]), rows[|rows| - 1]);
      assert rows == rows[..|rows| - 1] + [rows[|rows| - 1]];
    } else {
      assert WellGrouped([]) by { EmptyIsWellGrouped(); }
    }
  }

  lemma EmptyIsWellGrouped()
    ensures WellGrouped([])
  {
  }

  ghost predicate InDateOrder(rows: seq<Row>) {
    forall i, j :: 0 <= i < j < |rows| ==> NotAfter(rows[i].date, rows[j].date)
  }

  ghost predicate LabelledBy(rows: seq<Row>, mode: Granularity) {
    forall i :: 0 <= i < |rows| ==> rows[i].name == SegmentLabel(rows[i].date, mode)
  }

  ghost predicate Rising(groups: seq<Group>) {
    forall i, j :: 0 <= i < j < |groups| ==> LabelIndex(groups[i].name) < LabelIndex(groups[j].name)
  }

  /** Each label is used once: later groups have later labels. */
  lemma {:induction false} LabelsRise(rows: seq<Row>, mode: Granularity)
    requires InDateOrder(rows) && LabelledBy(rows, mode) && Positive(rows)
    ensures Rising(GroupRows(rows))
  {
    if rows != [] {
      var front, row := rows[..|rows| - 1], rows[|rows| - 1];
      LabelsRise(front, mode);
      GroupingPartitions(front);
      AddLaterRow(GroupRows(front), row, if front == [] then row else front[|front| - 1]);
    }
  }

  lemma AddLaterRow(groups: seq<Group>, row: Row, last: Row)
    requires Rising(groups) && NotAfter(last.date, row.date)
    requires exists mode :: last.name == SegmentLabel(last.date, mode) && row.name == SegmentLabel(row.date, mode)
    requires groups != [] ==> groups[|groups| - 1].name == last.name
    ensures Rising(AddRow(groups, row))
  {
    assert last.name != row.name ==> LabelIndex(last.name) < LabelIndex(row.name);
  }

  /** The date-sorted curve: the given points, in date order. */
  lemma CurveIsSorted(points: seq<Point>, mode: Granularity)
    requires Clean(points)
    ensures var curve := Curve(points, mode);
      && multiset(curve) == multiset(Rows(points, mode)) && |curve| == |points|
      && InDateOrder(curve) && LabelledBy(curve, mode) && Positive(curve)
  {
    var rows := Rows(points, mode);
    var curve := Curve(points, mode);
    SortPermutes(rows, EarlierRow());
    SortSorts(rows, EarlierRow());
    forall i | 0 <= i < |curve| ensures curve[i].equity > 0.0 && curve[i].name == SegmentLabel(curve[i].date, mode) {
      assert curve[i] in multiset(curve);
      assert curve[i] in rows;
    }
    forall i, j | 0 <= i < j < |curve| ensures NotAfter(curve[i].date, curve[j].date) {
      assert EarlierRow()(curve[i], curve[j]);
    }
  }

  // ---- compounding ---------------------------------------------------------------

  /** What `value` grows to with a return in percent. */
  function Grown(value: real, pct: real): real { value * (1.0 + pct / 100.0) }

  /** The growth of one unit of money through the returns. */
  function Growth(pcts: seq<real>): real {
    if pcts == [] then 1.0 else Grown(Growth(pcts[..|pcts| - 1]), pcts[|pcts| - 1])
  }

  function Returns(segments: seq<Segment>): seq<real> {
    seq(|segments|, i requires 0 <= i < |segments| => segments[i].returnPct)
  }

  /** Each segment starts where the one before ended, the first at `initialEquity`, and its return is its growth. */
  ghost predicate Chained(segments: seq<Segment>, initialEquity: real) {
    forall i :: 0 <= i < |segments| ==> Link(segments[i], EquityBefore(segments, i, initialEquity))
  }

  ghost predicate Link(s: Segment, startEquity: real) {
    s.startEquity == startEquity > 0.0 && s.endEquity > 0.0 && s.returnPct == ReturnPct(s.startEquity, s.endEquity)
  }

  function EquityBefore(segments: seq<Segment>, i: nat, initialEquity: real): real
    requires i <= |segments|
  {
    if i == 0 then initialEquity else segments[i - 1].endEquity
  }

  lemma ChainedFront(segments: seq<Segment>, initialEquity: real)
    requires Chained(segments, initialEquity) && segments != []
    ensures Chained(segments[..|segments| - 1], initialEquity)
  {
    hide Link;
    var front := segments[..|segments| - 1];
    forall i | 0 <= i < |front| ensures Link(front[i], EquityBefore(front, i, initialEquity)) {
      assert Link(segments[i], EquityBefore(segments, i, initialEquity));
    }
  }

  lemma StepOfGrowth(g: real, initial: real, start: real, end: real)
    requires initial > 0.0 && start > 0.0 && g == Ratio(start, initial)
    ensures Grown(g, ReturnPct(start, end)) == Ratio(end, initial)
  {
    assert 1.0 + ReturnPct(start, end) / 100.0 == end / start;
    assert (start / initial) * (end / start) == end / initial by {
      assert (start / initial) * (end / start) * initial == end;
    }
  }

  lemma GrowthOfNothing(initial: real)
    requires initial > 0.0
    ensures Ratio(initial, initial) == 1.0
  {
  }

  lemma GrowthUnfolds(segments: seq<Segment>)
    requires segments != []
    ensures Growth(Returns(segments)) ==
      Grown(Growth(Returns(segments[..|segments| - 1])), segments[|segments| - 1].returnPct)
  {
    assert Returns(segments)[..|segments| - 1] == Returns(segments[..|segments| - 1]);
  }

  /** Compounding telescopes. */
  lemma {:induction false} CompoundingTelescopes(segments: seq<Segment>, initialEquity: real)
    requires Chained(segments, initialEquity) && initialEquity > 0.0
    ensures Growth(Returns(segments)) == Ratio(EquityBefore(segments, |segments|, initialEquity), initialEquity)
  {
    if segments == [] {
      GrowthOfNothing(initialEquity);
    } else {
      hide Growth, Grown, ReturnPct, Ratio;
      var front, last := segments[..|segments| - 1], segments[|segments| - 1];
      assert Link(last, EquityBefore(segments, |segments| - 1, initialEquity));
      assert EquityBefore(segments, |segments| - 1, initialEquity) == EquityBefore(front, |front|, initialEquity);
      ChainedFront(segments, initialEquity);
      CompoundingTelescopes(front, initialEquity);
      GrowthUnfolds(segments);
      StepOfGrowth(Growth(Returns(front)), initialEquity, last.startEquity, last.endEquity);
    }
  }

  // ---- the segments of a curve ---------------------------------------------------

  function SegmentsOf(groups: seq<Group>, initialEquity: real): seq<Segment>
    requires WellGrouped(groups) && initialEquity > 0.0
  {
    seq(|groups|, k requires 0 <= k < |groups| => SegmentFrom(groups[k], EquityAfter(groups, k, initialEquity)))
  }

  /** The segments of groups follow on from one another, and their growth is the last equity over the first. */
  lemma SegmentsAreChained(groups: seq<Group>, initialEquity: real)
    requires WellGrouped(groups) && initialEquity > 0.0
    ensures var segments := SegmentsOf(groups, initialEquity);
      && Chained(segments, initialEquity)
      && Growth(Returns(segments)) == Ratio(EquityAfter(groups, |groups|, initialEquity), initialEquity)
  {
    hide ReturnPct, Ratio, Growth, SoundGroup, LastEquity;
    var segments := SegmentsOf(groups, initialEquity);
    forall i | 0 <= i < |segments| ensures Link(segments[i], EquityBefore(segments, i, initialEquity)) {
      if i > 0 {
        assert segments[i - 1].endEquity == LastEquity(groups[i - 1]);
      }
    }
    CompoundingTelescopes(segments, initialEquity);
  }

  /** What the split of clean points gives. */
  function Split(points: seq<Point>, mode: Granularity, initialEquity: real): seq<Segment>
    requires Clean(points) && initialEquity > 0.0
  {
    CurveIsSorted(points, mode);
    GroupingPartitions(Curve(points, mode));
    SegmentsOf(GroupRows(Curve(points, mode)), initialEquity)
  }

  /** The segments use each label once, cover the date-sorted curve, and compound to its whole growth. */
  lemma SegmentsTelescope(points: seq<Point>, mode: Granularity, initialEquity: real)
    requires Clean(points) && initialEquity > 0.0 && points != []
    ensures var segments := Split(points, mode, initialEquity);
            var curve := Curve(points, mode);
      && (forall i, j :: 0 <= i < j < |segments| ==> LabelIndex(segments[i].name) < LabelIndex(segments[j].name))
      && Chained(segments, initialEquity)
      && (Growth(Returns(segments)) - 1.0) * 100.0 == ReturnPct(initialEquity, curve[|curve| - 1].equity)
  {
    hide Growth, Ratio, Chained, SegmentsOf, GroupRows, Flatten, SoundGroup;
    var curve := Curve(points, mode);
    var groups := GroupRows(curve);
    CurveIsSorted(points, mode);
    GroupingPartitions(curve);
    LabelsRise(curve, mode);
    SegmentsAreChained(groups, initialEquity);
    LastRow(groups);
    LabelsOfSegments(groups, initialEquity);
  }

  lemma LabelsOfSegments(groups: seq<Group>, initialEquity: real)
    requires WellGrouped(groups) && initialEquity > 0.0
    ensures var segments := SegmentsOf(groups, initialEquity);
      |segments| == |groups| && forall i :: 0 <= i < |groups| ==> segments[i].name == groups[i].name
  {
    hide ReturnPct, LastEquity;
  }

  lemma LastRow(groups: seq<Group>)
    requires WellGrouped(groups) && groups != []
    ensures var flat, last := Flatten(groups), groups[|groups| - 1].rows;
      flat != [] && flat[|flat| - 1] == last[|last| - 1] && flat[|flat| - 1].equity == LastEquity(groups[|groups| - 1])
  {
  }

  // ---- segments are calendar periods ---------------------------------------------

  /** The date lies in the month or the quarter the label names. */
  predicate InPeriod(d: Date, name: Label) {
    match name
    case MonthOf(year, month) => d.year == year && d.month == month
    case QuarterOf(year, quarter) => d.year == year && 3 * quarter - 2 <= d.month <= 3 * quarter
  }

  /** Two dates in one calendar month, or in one of the quarters January to March, April to June, July to September and October to
      December. */
  predicate SamePeriod(a: Date, b: Date, mode: Granularity) {
    && a.year == b.year
    && (mode == Monthly ==> a.month == b.month)
    && (mode == Quarterly ==>
          || (a.month <= 3 && b.month <= 3) || (4 <= a.month <= 6 && 4 <= b.month <= 6)
          || (7 <= a.month <= 9 && 7 <= b.month <= 9) || (10 <= a.month && 10 <= b.month))
  }

  /** Dates by their place in the calendar, with 31 days kept for every month. */
  function DayNumber(d: Date): int { (d.year * 12 + d.month) * 31 + d.day }

  lemma NotAfterIsCalendarOrder(a: Date, b: Date)
    ensures NotAfter(a, b) <==> DayNumber(a) <= DayNumber(b)
  {
  }

  predicate OfMode(name: Label, mode: Granularity) { name.MonthOf? <==> mode == Monthly }

  lemma LabelIsPeriod(d: Date, mode: Granularity)
    ensures OfMode(SegmentLabel(d, mode), mode)
    ensures forall name :: OfMode(name, mode) ==> (SegmentLabel(d, mode) == name <==> InPeriod(d, name))
    ensures forall b: Date :: SamePeriod(d, b, mode) <==> SegmentLabel(d, mode) == SegmentLabel(b, mode)
  {
  }

  /** The points whose dates lie in the period. */
  ghost function Within(points: seq<Point>, name: Label): set<nat>
    requires Clean(points)
  {
    set i: nat | i < |points| && InPeriod(points[i].date.value, name)
  }

  /** The segment runs from the first to the last date of the points in its period, counts them, and ends at the equity of the last
      of them; of several on the last date that is the one handed in last. */
  ghost predicate IsPeriod(s: Segment, points: seq<Point>, mode: Granularity)
    requires Clean(points)
  {
    var own := Within(points, s.name);
    && OfMode(s.name, mode) && s.tradingDays == |own|
    && (exists first :: first in own && points[first].date.value == s.startDate)
    && (exists last :: last in own && IsLastOf(last, own, points) && points[last].date.value == s.endDate && points[last].equity == s.endEquity)
    && (forall i :: i in own ==> DayNumber(s.startDate) <= DayNumber(points[i].date.value) <= DayNumber(s.endDate))
  }

  ghost predicate IsLastOf(last: nat, own: set<nat>, points: seq<Point>)
    requires Clean(points) && last < |points| && forall i :: i in own ==> i < |points|
  {
    forall i :: i in own && points[i].date == points[last].date ==> i <= last
  }

  /** The calendar months, or quarters, that points fall in. */
  ghost function Months(points: seq<Point>): set<(int, int)>
    requires Clean(points)
  {
    set i: nat | i < |points| :: (points[i].date.value.year, points[i].date.value.month as int)
  }

  function QuarterIn(m: Month): int { if m <= 3 then 1 else if m <= 6 then 2 else if m <= 9 then 3 else 4 }

  ghost function Quarters(points: seq<Point>): set<(int, int)>
    requires Clean(points)
  {
    set i: nat | i < |points| :: (points[i].date.value.year, QuarterIn(points[i].date.value.month))
  }

  /** With each of its points, `own` has exactly the points of the same period. */
  ghost predicate OnePeriod(own: set<nat>, points: seq<Point>, mode: Granularity)
    requires Clean(points)
  {
    forall i, j :: i in own && i < |points| && 0 <= j < |points| ==>
      (j in own <==> SamePeriod(points[i].date.value, points[j].date.value, mode))
  }

  /** The segments are the periods the points fall in: every point lies in one of them and no other, two points lie in the same one
      exactly when their dates are of one period, and there are as many as different periods. */
  ghost predicate CutByPeriods(segments: seq<Segment>, points: seq<Point>, mode: Granularity)
    requires Clean(points)
  {
    && (forall k :: 0 <= k < |segments| ==> IsPeriod(segments[k], points, mode))
    && (forall i :: 0 <= i < |points| ==> exists k :: 0 <= k < |segments| && InPeriod(points[i].date.value, segments[k].name))
    && (forall k, n :: 0 <= k < n < |segments| ==> segments[k].name != segments[n].name && DayNumber(segments[k].endDate) < DayNumber(segments[n].startDate))
    && (forall k :: 0 <= k < |segments| ==> OnePeriod(Within(points, segments[k].name), points, mode))
    && |segments| == |if mode == Monthly then Months(points) else Quarters(points)|
  }

  ghost predicate NamesDiffer(groups: seq<Group>) {
    forall i, j :: 0 <= i < j < |groups| ==> groups[i].name != groups[j].name
  }

  /** Every row stands in a group, under its label. */
  lemma {:induction false} GroupOfRow(groups: seq<Group>, c: nat) returns (k: nat)
    requires WellGrouped(groups) && c < |Flatten(groups)|
    ensures k < |groups| && Flatten(groups)[c].name == groups[k].name
  {
    var n := |groups| - 1;
    var front := Flatten(groups[..n]);
    if c < |front| {
      k := GroupOfRow(groups[..n], c);
    } else {
      assert Flatten(groups)[c] == groups[n].rows[c - |front|];
      k := n;
    }
  }

  /** The rows of a group are a stretch of `rows`, and all of those under its label. */
  ghost predicate StretchOf(g: Group, rows: seq<Row>, from: nat) {
    var until := from + |g.rows|;
    && until <= |rows| && rows[from..until] == g.rows
    && forall c :: 0 <= c < |rows| ==> (rows[c].name == g.name <==> from <= c < until)
  }

  lemma StretchOfLonger(g: Group, rows: seq<Row>, from: nat, more: seq<Row>)
    requires StretchOf(g, rows, from) && forall c :: 0 <= c < |more| ==> more[c].name != g.name
    ensures StretchOf(g, rows + more, from)
  {
    var until := from + |g.rows|;
    assert (rows + more)[from..until] == rows[from..until];
  }

  lemma StretchAtEnd(g: Group, rows: seq<Row>)
    requires SoundGroup(g) && forall c :: 0 <= c < |rows| ==> rows[c].name != g.name
    ensures StretchOf(g, rows + g.rows, |rows|)
  {
    assert (rows + g.rows)[|rows|..|rows| + |g.rows|] == g.rows;
  }

  lemma {:induction false} GroupIsStretch(groups: seq<Group>, k: nat)
    requires k < |groups| && WellGrouped(groups) && NamesDiffer(groups)
    ensures StretchOf(groups[k], Flatten(groups), |Flatten(groups[..k])|)
  {
    hide StretchOf;
    var n := |groups| - 1;
    var front := Flatten(groups[..n]);
    if k < n {
      GroupIsStretch(groups[..n], k);
      assert groups[..n][..k] == groups[..k];
      StretchOfLonger(groups[k], front, |Flatten(groups[..k])|, groups[n].rows);
    } else {
      forall c | 0 <= c < |front| ensures front[c].name != groups[n].name {
        var i := GroupOfRow(groups[..n], c);
      }
      StretchAtEnd(groups[n], front);
    }
  }

  /** `own` are the places of the points in a group, in the order of its rows. */
  ghost predicate Owns(g: Group, own: seq<nat>, points: seq<Point>, mode: Granularity)
    requires Clean(points)
  {
    && |own| == |g.rows| > 0 && OfMode(g.name, mode)
    && (forall c :: 0 <= c < |own| ==> own[c] < |points| && g.rows[c] == RowOf(points[own[c]], mode))
    && (forall i :: i in own <==> i in Within(points, g.name))
    && (forall c, d :: 0 <= c < d < |own| ==>
          && own[c] != own[d] && NotAfter(g.rows[c].date, g.rows[d].date)
          && (NotAfter(g.rows[d].date, g.rows[c].date) ==> own[c] < own[d]))
  }

  lemma GroupOwns(points: seq<Point>, mode: Granularity, k: nat) returns (own: seq<nat>)
    requires Clean(points) && k < |GroupRows(Curve(points, mode))|
    ensures Owns(GroupRows(Curve(points, mode))[k], own, points, mode)
  {
    hide SegmentLabel, StableSort, Flatten, GroupRows, StablyOrders, InDateOrder;
    var rows, curve := Rows(points, mode), Curve(points, mode);
    var groups, order := GroupRows(curve), SortOrder(rows, EarlierRow());
    SortIsStable(rows, EarlierRow());
    CurveIsSorted(points, mode);
    GroupingPartitions(curve);
    LabelsRise(curve, mode);
    GroupIsStretch(groups, k);
    var from := |Flatten(groups[..k])|;
    var until := from + |groups[k].rows|;
    assert SoundGroup(groups[k]);
    StretchOwns(groups[k], points, mode, curve, order, from, until);
    own := order[from..until];
  }

  lemma StretchOwns(g: Group, points: seq<Point>, mode: Granularity, curve: seq<Row>, order: seq<nat>, from: nat, until: nat)
    requires Clean(points) && StablyOrders(order, Rows(points, mode), curve, EarlierRow()) && InDateOrder(curve) && SoundGroup(g)
    requires from < until <= |curve| && curve[from..until] == g.rows && LabelledBy(curve, mode)
    requires forall c :: 0 <= c < |curve| ==> (curve[c].name == g.name <==> from <= c < until)
    ensures Owns(g, order[from..until], points, mode)
  {
    hide SegmentLabel, NotAfter, OfMode;
    var own := order[from..until];
    assert forall c :: 0 <= c < |own| ==> g.rows[c] == curve[from + c] && own[c] == order[from + c];
    LabelIsPeriod(g.rows[0].date, mode);
    OwnsAll(g, points, mode, curve, order, from, until);
    forall c, d | 0 <= c < d < |own|
      ensures own[c] != own[d] && NotAfter(g.rows[c].date, g.rows[d].date)
      ensures NotAfter(g.rows[d].date, g.rows[c].date) ==> own[c] < own[d]
    {
      assert EarlierRow()(curve[from + d], curve[from + c]) == NotAfter(g.rows[d].date, g.rows[c].date);
    }
  }

  lemma OwnsAll(g: Group, points: seq<Point>, mode: Granularity, curve: seq<Row>, order: seq<nat>, from: nat, until: nat)
    requires Clean(points) && StablyOrders(order, Rows(points, mode), curve, EarlierRow()) && OfMode(g.name, mode)
    requires from < until <= |curve|
    requires forall c :: 0 <= c < |curve| ==> (curve[c].name == g.name <==> from <= c < until)
    ensures forall i :: i in order[from..until] <==> i in Within(points, g.name)
  {
    hide SegmentLabel, NotAfter, OfMode, InPeriod;
    forall i ensures i in order[from..until] <==> i in Within(points, g.name) {
      if i in order[from..until] {
        var c :| 0 <= c < until - from && order[from..until][c] == i;
        assert curve[from + c] == RowOf(points[i], mode);
        LabelIsPeriod(points[i].date.value, mode);
      }
      if i in Within(points, g.name) {
        LabelIsPeriod(points[i].date.value, mode);
        assert i in order;
        var c :| 0 <= c < |order| && order[c] == i;
        assert curve[c] == RowOf(points[i], mode);
        assert order[from..until][c - from] == i;
      }
    }
  }

  lemma SegmentIsPeriod(g: Group, own: seq<nat>, start: real, points: seq<Point>, mode: Granularity)
    requires Clean(points) && SoundGroup(g) && start > 0.0 && Owns(g, own, points, mode)
    ensures IsPeriod(SegmentFrom(g, start), points, mode)
  {
    hide ReturnPct, OfMode, Owns, Within, DayNumber, IsLastOf;
    OwnEnds(g, own, points, mode);
    WithinAreThere(points, g.name);
    forall i | i in Within(points, g.name) ensures DayNumber(g.rows[0].date) <= DayNumber(points[i].date.value) <= DayNumber(g.rows[|g.rows| - 1].date) {
      OwnDates(g, own, points, mode, i);
    }
  }

  lemma OwnEnds(g: Group, own: seq<nat>, points: seq<Point>, mode: Granularity)
    requires Clean(points) && Owns(g, own, points, mode)
    ensures var all, n := Within(points, g.name), |own| - 1;
      && OfMode(g.name, mode) && |all| == |own| == |g.rows| && own[0] in all && own[n] in all && IsLastOf(own[n], all, points)
      && points[own[0]].date == Some(g.rows[0].date)
      && points[own[n]].date == Some(g.rows[n].date) && points[own[n]].equity == g.rows[n].equity
  {
    hide OfMode, Within, SegmentLabel, DayNumber, NotAfter;
    var all, n := Within(points, g.name), |own| - 1;
    WithinAreThere(points, g.name);
    DistinctSize(own, all);
    assert own[0] in own && own[n] in own;
    forall i | i in all && points[i].date == points[own[n]].date ensures i <= own[n] {
      OwnDates(g, own, points, mode, i);
    }
  }

  lemma WithinAreThere(points: seq<Point>, name: Label)
    requires Clean(points)
    ensures forall i :: i in Within(points, name) ==> i < |points|
  {
  }

  lemma OwnDates(g: Group, own: seq<nat>, points: seq<Point>, mode: Granularity, i: nat)
    requires Clean(points) && Owns(g, own, points, mode) && i in Within(points, g.name)
    ensures DayNumber(g.rows[0].date) <= DayNumber(points[i].date.value) <= DayNumber(g.rows[|g.rows| - 1].date)
    ensures points[i].date == Some(g.rows[|g.rows| - 1].date) ==> i <= own[|own| - 1]
  {
    hide OfMode, SegmentLabel, DayNumber, NotAfter;
    assert i in own;
    var c :| 0 <= c < |own| && own[c] == i;
    NotAfterIsCalendarOrder(g.rows[0].date, g.rows[c].date);
    NotAfterIsCalendarOrder(g.rows[c].date, g.rows[|own| - 1].date);
    NotAfterIsCalendarOrder(g.rows[|own| - 1].date, g.rows[c].date);
  }

  lemma PointsAreCovered(points: seq<Point>, mode: Granularity, i: nat) returns (k: nat)
    requires Clean(points) && i < |points|
    ensures var groups := GroupRows(Curve(points, mode)); k < |groups| && i in Within(points, groups[k].name)
  {
    hide StableSort, Flatten, GroupRows;
    var rows, curve := Rows(points, mode), Curve(points, mode);
    SortIsStable(rows, EarlierRow());
    var order := SortOrder(rows, EarlierRow());
    assert |rows| == |points| && i in order;
    var c :| 0 <= c < |order| && order[c] == i;
    CurveIsSorted(points, mode);
    GroupingPartitions(curve);
    k := GroupOfRow(GroupRows(curve), c);
    LabelIsPeriod(points[i].date.value, mode);
  }

  function KeyOf(name: Label): (int, int) {
    match name
    case MonthOf(year, month) => (year, month as int)
    case QuarterOf(year, quarter) => (year, quarter)
  }

  lemma KeyOfPeriod(d: Date, name: Label, mode: Granularity)
    requires OfMode(name, mode) && InPeriod(d, name)
    ensures KeyOf(name) == (d.year, if mode == Monthly then d.month as int else QuarterIn(d.month))
  {
  }

  /** The point lies in one of the periods. */
  ghost predicate Covered(i: nat, names: seq<Label>, points: seq<Point>)
    requires Clean(points)
  {
    exists k :: 0 <= k < |names| && i in Within(points, names[k])
  }

  /** As many labels as periods. */
  lemma PeriodsCounted(names: seq<Label>, points: seq<Point>, mode: Granularity)
    requires Clean(points) && forall i, j :: 0 <= i < j < |names| ==> names[i] != names[j]
    requires forall k :: 0 <= k < |names| ==> OfMode(names[k], mode) && exists i :: i in Within(points, names[k])
    requires forall i: nat :: i < |points| ==> Covered(i, names, points)
    ensures |names| == |if mode == Monthly then Months(points) else Quarters(points)|
  {
    hide KeyOf, InPeriod, OfMode, QuarterIn;
    var keys := seq(|names|, k requires 0 <= k < |names| => KeyOf(names[k]));
    forall k, n | 0 <= k < n < |keys| ensures keys[k] != keys[n] {
      KeysDiffer(names[k], names[n], mode);
    }
    var periods := if mode == Monthly then Months(points) else Quarters(points);
    forall key | key in keys ensures key in periods {
      var k :| 0 <= k < |keys| && keys[k] == key;
      var i :| i in Within(points, names[k]);
      KeyOfPeriod(points[i].date.value, names[k], mode);
    }
    forall key | key in periods ensures key in keys {
      var i := PointOfPeriod(key, points, mode);
      assert Covered(i, names, points);
      var k :| 0 <= k < |names| && i in Within(points, names[k]);
      KeyOfPeriod(points[i].date.value, names[k], mode);
      assert keys[k] == key;
    }
    DistinctSize(keys, periods);
  }

  lemma KeysDiffer(a: Label, b: Label, mode: Granularity)
    requires OfMode(a, mode) && OfMode(b, mode) && a != b
    ensures KeyOf(a) != KeyOf(b)
  {
  }

  lemma PointOfPeriod(key: (int, int), points: seq<Point>, mode: Granularity) returns (i: nat)
    requires Clean(points) && key in if mode == Monthly then Months(points) else Quarters(points)
    ensures i < |points|
    ensures var d := points[i].date.value; key == (d.year, if mode == Monthly then d.month as int else QuarterIn(d.month))
  {
    if mode == Monthly {
      i :| i < |points| && key == (points[i].date.value.year, points[i].date.value.month as int);
    } else {
      i :| i < |points| && key == (points[i].date.value.year, QuarterIn(points[i].date.value.month));
    }
  }

  lemma PeriodsAreTold(points: seq<Point>, name: Label, mode: Granularity)
    requires Clean(points) && OfMode(name, mode)
    ensures OnePeriod(Within(points, name), points, mode)
  {
  }

  lemma LaterPeriod(d: Date, e: Date, a: Label, b: Label, mode: Granularity)
    requires OfMode(a, mode) && OfMode(b, mode) && InPeriod(d, a) && InPeriod(e, b) && LabelIndex(a) < LabelIndex(b)
    ensures DayNumber(d) < DayNumber(e)
  {
  }

  /** The split is by calendar months, or by the four quarters of a year. */
  lemma SegmentsArePeriods(points: seq<Point>, mode: Granularity, initialEquity: real)
    requires Clean(points) && initialEquity > 0.0
    ensures CutByPeriods(Split(points, mode, initialEquity), points, mode)
  {
    hide SegmentFrom, GroupRows, StableSort, SoundGroup, LastEquity, IsPeriod, Owns, Flatten, InPeriod;
    var segments, curve := Split(points, mode, initialEquity), Curve(points, mode);
    var groups := GroupRows(curve);
    CurveIsSorted(points, mode);
    GroupingPartitions(curve);
    LabelsRise(curve, mode);
    LabelsOfSegments(groups, initialEquity);
    forall k | 0 <= k < |segments| ensures IsPeriod(segments[k], points, mode) {
      var own := GroupOwns(points, mode, k);
      SegmentIsPeriod(groups[k], own, EquityAfter(groups, k, initialEquity), points, mode);
    }
    var names := NamesOf(segments);
    forall i: nat | i < |points| ensures Covered(i, names, points) {
      var k := PointsAreCovered(points, mode, i);
      assert names[k] == groups[k].name;
    }
    PeriodsMakeTheCut(segments, points, mode);
  }

  function NamesOf(segments: seq<Segment>): seq<Label> {
    seq(|segments|, k requires 0 <= k < |segments| => segments[k].name)
  }

  lemma PeriodsMakeTheCut(segments: seq<Segment>, points: seq<Point>, mode: Granularity)
    requires Clean(points) && forall k :: 0 <= k < |segments| ==> IsPeriod(segments[k], points, mode)
    requires forall k, n :: 0 <= k < n < |segments| ==> LabelIndex(segments[k].name) < LabelIndex(segments[n].name)
    requires forall i: nat :: i < |points| ==> Covered(i, NamesOf(segments), points)
    ensures CutByPeriods(segments, points, mode)
  {
    hide InPeriod, OnePeriod, LabelIndex, DayNumber, Months, Quarters, IsPeriod, OfMode;
    var names := NamesOf(segments);
    forall k | 0 <= k < |segments| ensures OfMode(names[k], mode) && exists i :: i in Within(points, names[k]) {
      PeriodIsMet(segments[k], points, mode);
    }
    PeriodsCounted(names, points, mode);
    forall i | 0 <= i < |points| ensures exists k :: 0 <= k < |segments| && InPeriod(points[i].date.value, segments[k].name) {
      assert Covered(i, names, points);
      var k :| 0 <= k < |names| && i in Within(points, names[k]);
      assert InPeriod(points[i].date.value, segments[k].name);
    }
    forall k, n | 0 <= k < n < |segments|
      ensures segments[k].name != segments[n].name && DayNumber(segments[k].endDate) < DayNumber(segments[n].startDate)
    {
      PeriodIsMet(segments[k], points, mode);
      PeriodIsMet(segments[n], points, mode);
      LaterPeriod(segments[k].endDate, segments[n].startDate, segments[k].name, segments[n].name, mode);
    }
    forall k | 0 <= k < |segments| ensures OnePeriod(Within(points, segments[k].name), points, mode) {
      PeriodIsMet(segments[k], points, mode);
      PeriodsAreTold(points, segments[k].name, mode);
    }
    assert forall k :: 0 <= k < |segments| ==> OnePeriod(Within(points, segments[k].name), points, mode);
  }

  lemma PeriodIsMet(s: Segment, points: seq<Point>, mode: Granularity)
    requires Clean(points) && IsPeriod(s, points, mode)
    ensures OfMode(s.name, mode) && InPeriod(s.startDate, s.name) && InPeriod(s.endDate, s.name) && exists i :: i in Within(points, s.name)
  {
  }

  // ---- months make quarters ------------------------------------------------------

  function Recast(rows: seq<Row>): seq<Row> {
    seq(|rows|, i requires 0 <= i < |rows| => rows[i].(name := Coarser(rows[i].name)))
  }

  /** Put a group behind others, joined with the last of them when both are in one quarter. */
  function JoinGroup(groups: seq<Group>, g: Group): seq<Group> {
    var last := |groups| - 1;
    if groups == [] || groups[last].name != Coarser(g.name) then groups + [Group(Coarser(g.name), Recast(g.rows))]
    else groups[last := MergedGroup(groups[last], g)]
  }

  function MergedGroup(quarter: Group, g: Group): Group {
    Group(quarter.name, quarter.rows + Recast(g.rows))
  }

  function JoinGroups(groups: seq<Group>): seq<Group> {
    if groups == [] then [] else JoinGroup(JoinGroups(groups[..|groups| - 1]), groups[|groups| - 1])
  }

  /** Put a segment behind others, compounded into the last of them when both are in one quarter. */
  function JoinSegment(segments: seq<Segment>, s: Segment): seq<Segment> {
    var last := |segments| - 1;
    if segments == [] || segments[last].name != Coarser(s.name) then segments + [s.(name := Coarser(s.name))]
    else segments[last := Merged(segments[last], s)]
  }

  /** Two segments on end as one: the returns compounded, from the start of the first to the end of the second. */
  function Merged(quarter: Segment, s: Segment): Segment {
    quarter.(
      returnPct := (Grown(Grown(1.0, quarter.returnPct), s.returnPct) - 1.0) * 100.0,
      endEquity := s.endEquity, endDate := s.endDate, tradingDays := quarter.tradingDays + s.tradingDays)
  }

  function JoinSegments(segments: seq<Segment>): seq<Segment> {
    if segments == [] then [] else JoinSegment(JoinSegments(segments[..|segments| - 1]), segments[|segments| - 1])
  }

  /** Joining the month groups of a curve gives its quarter groups. */
  lemma {:induction false} MonthGroupsMakeQuarterGroups(rows: seq<Row>)
    ensures JoinGroups(GroupRows(rows)) == GroupRows(Recast(rows))
  {
    if rows != [] {
      var front, row := rows[..|rows| - 1], rows[|rows| - 1];
      var groups := GroupRows(front);
      var next := AddRow(groups, row);
      MonthGroupsMakeQuarterGroups(front);
      assert Recast(rows)[..|rows| - 1] == Recast(front);
      JoinAfterAdd(groups, row);
    }
  }

  /** A month group that grows by a row makes its quarter group grow by it. */
  lemma JoinLonger(joined: seq<Group>, g: Group, row: Row)
    requires row.name == g.name
    ensures JoinGroup(joined, Group(g.name, g.rows + [row])) == AddRow(JoinGroup(joined, g), row.(name := Coarser(row.name)))
  {
    var before := JoinGroup(joined, g);
    assert Recast(g.rows + [row]) == Recast(g.rows) + [row.(name := Coarser(row.name))];
    var last := |joined| - 1;
    if joined == [] || joined[last].name != Coarser(g.name) {
      assert before[..|joined|] == joined;
    } else {
      assert joined[last].rows + Recast(g.rows + [row]) == before[last].rows + [row.(name := Coarser(row.name))];
    }
  }

  lemma JoinAfterAdd(groups: seq<Group>, row: Row)
    ensures JoinGroups(AddRow(groups, row)) == AddRow(JoinGroups(groups), row.(name := Coarser(row.name)))
  {
    var next := AddRow(groups, row);
    var n := |next| - 1;
    assert next[..n] == groups[..n];
    var joined := JoinGroups(groups[..n]);
    assert Recast([row]) == [row.(name := Coarser(row.name))];
    if |next| == |groups| {
      var g := groups[n];
      assert Recast(g.rows + [row]) == Recast(g.rows) + Recast([row]);
      JoinLonger(joined, g, row);
    } else {
      assert groups[..n] == groups;
      assert groups != [] ==> groups[..n] == groups;
    }
  }

  lemma JoinKeepsGroups(groups: seq<Group>, g: Group)
    requires WellGrouped(groups) && SoundGroup(g)
    ensures var after := JoinGroup(groups, g);
      WellGrouped(after) && after != [] && LastEquity(after[|after| - 1]) == LastEquity(g)
  {
  }

  lemma {:induction false} JoinedGroupsAreWell(groups: seq<Group>)
    requires WellGrouped(groups)
    ensures var after := JoinGroups(groups);
      && WellGrouped(after) && (after == [] <==> groups == [])
      && (groups != [] ==> LastEquity(after[|after| - 1]) == LastEquity(groups[|groups| - 1]))
  {
    hide SoundGroup, JoinGroup, LastEquity;
    if groups != [] {
      JoinedGroupsAreWell(groups[..|groups| - 1]);
      JoinKeepsGroups(JoinGroups(groups[..|groups| - 1]), groups[|groups| - 1]);
    }
  }

  lemma TwoReturns(a: real, b: real, c: real)
    requires a > 0.0 && b > 0.0
    ensures (Grown(Grown(1.0, ReturnPct(a, b)), ReturnPct(b, c)) - 1.0) * 100.0 == ReturnPct(a, c)
  {
    GrowthOfNothing(a);
    StepOfGrowth(1.0, a, a, b);
    StepOfGrowth(Ratio(b, a), a, b, c);
  }

  lemma SegmentOfMerged(quarter: Group, g: Group, start: real)
    requires SoundGroup(quarter) && SoundGroup(g) && start > 0.0 && SoundGroup(MergedGroup(quarter, g))
    ensures SegmentFrom(MergedGroup(quarter, g), start) == Merged(SegmentFrom(quarter, start), SegmentFrom(g, LastEquity(quarter)))
  {
    hide ReturnPct, Ratio, Grown;
    TwoReturns(start, LastEquity(quarter), LastEquity(g));
  }

  lemma SegmentOfRecast(g: Group, start: real)
    requires SoundGroup(g) && start > 0.0
    ensures var quarter := Group(Coarser(g.name), Recast(g.rows));
      SoundGroup(quarter) && SegmentFrom(quarter, start) == SegmentFrom(g, start).(name := Coarser(g.name))
  {
    hide ReturnPct, Ratio;
  }

  lemma SegmentsOfLast(groups: seq<Group>, initialEquity: real)
    requires WellGrouped(groups) && initialEquity > 0.0 && groups != []
    ensures var n := |groups| - 1;
      SegmentsOf(groups, initialEquity)
      == SegmentsOf(groups[..n], initialEquity) + [SegmentFrom(groups[n], EquityAfter(groups[..n], n, initialEquity))]
  {
    hide SegmentFrom, SoundGroup, LastEquity;
    SegmentsOfPrefix(groups, groups[..|groups| - 1], |groups| - 1, initialEquity);
  }

  /** A group that opens a quarter. */
  lemma NewQuarter(before: seq<Group>, g: Group, initialEquity: real)
    requires WellGrouped(before) && SoundGroup(g) && initialEquity > 0.0 && WellGrouped(JoinGroup(before, g))
    requires before == [] || before[|before| - 1].name != Coarser(g.name)
    ensures SegmentsOf(JoinGroup(before, g), initialEquity)
         == JoinSegment(SegmentsOf(before, initialEquity), SegmentFrom(g, EquityAfter(before, |before|, initialEquity)))
  {
    hide SegmentFrom, SoundGroup, LastEquity, SegmentsOf;
    LabelsOfSegments(before, initialEquity);
    SegmentOfRecast(g, EquityAfter(before, |before|, initialEquity));
    var after := JoinGroup(before, g);
    assert after[..|before|] == before;
    SegmentsOfLast(after, initialEquity);
  }

  /** A group that continues a quarter. */
  lemma SameQuarter(before: seq<Group>, g: Group, initialEquity: real)
    requires WellGrouped(before) && SoundGroup(g) && initialEquity > 0.0 && WellGrouped(JoinGroup(before, g))
    requires before != [] && before[|before| - 1].name == Coarser(g.name)
    ensures SegmentsOf(JoinGroup(before, g), initialEquity)
         == JoinSegment(SegmentsOf(before, initialEquity), SegmentFrom(g, EquityAfter(before, |before|, initialEquity)))
  {
    hide SegmentFrom, SoundGroup, LastEquity, SegmentsOf, MergedGroup;
    var n := |before| - 1;
    LabelsOfSegments(before, initialEquity);
    var after := JoinGroup(before, g);
    assert after[..n] == before[..n] && after[n] == MergedGroup(before[n], g);
    SegmentOfMerged(before[n], g, EquityAfter(before[..n], n, initialEquity));
    SegmentsOfLast(before, initialEquity);
    SegmentsOfLast(after, initialEquity);
  }

  /** Joining a group, then cutting segments, is cutting segments, then compounding. */
  lemma JoinThenSegment(before: seq<Group>, g: Group, initialEquity: real)
    requires WellGrouped(before) && SoundGroup(g) && initialEquity > 0.0
    requires WellGrouped(JoinGroup(before, g))
    ensures SegmentsOf(JoinGroup(before, g), initialEquity)
         == JoinSegment(SegmentsOf(before, initialEquity), SegmentFrom(g, EquityAfter(before, |before|, initialEquity)))
  {
    hide JoinGroup, JoinSegment, SegmentFrom, SoundGroup;
    var last := |before| - 1;
    if before == [] || before[last].name != Coarser(g.name) {
      NewQuarter(before, g, initialEquity);
    } else {
      SameQuarter(before, g, initialEquity);
    }
  }

  lemma SegmentsOfPrefix(a: seq<Group>, b: seq<Group>, n: nat, initialEquity: real)
    requires WellGrouped(a) && WellGrouped(b) && initialEquity > 0.0 && n <= |a| && n <= |b| && a[..n] == b[..n]
    ensures SegmentsOf(a, initialEquity)[..n] == SegmentsOf(b, initialEquity)[..n]
    ensures EquityAfter(a, n, initialEquity) == EquityAfter(b, n, initialEquity)
  {
    hide SegmentFrom, LastEquity;
    forall k | 0 <= k < n ensures a[k] == b[k] {
      assert a[..n][k] == b[..n][k];
    }
  }

  /** Compounding the monthly segments of each quarter, in groups that cover the same rows. */
  lemma {:induction false} SegmentsJoin(groups: seq<Group>, initialEquity: real)
    requires WellGrouped(groups) && initialEquity > 0.0 && WellGrouped(JoinGroups(groups))
    ensures JoinSegments(SegmentsOf(groups, initialEquity)) == SegmentsOf(JoinGroups(groups), initialEquity)
  {
    if groups != [] {
      hide SoundGroup, JoinGroup, LastEquity, SegmentFrom, JoinSegment;
      var n := |groups| - 1;
      var front := groups[..n];
      var joined := JoinGroups(front);
      JoinedGroupsAreWell(front);
      SegmentsJoin(front, initialEquity);
      SegmentsOfPrefix(groups, front, n, initialEquity);
      assert SegmentsOf(groups, initialEquity)[..n] == SegmentsOf(front, initialEquity);
      JoinThenSegment(joined, groups[n], initialEquity);
      assert EquityAfter(joined, |joined|, initialEquity) == EquityAfter(groups, n, initialEquity);
    }
  }

  // ---- both granularities sort alike ---------------------------------------------

  lemma {:induction false} InsertRecast(row: Row, rows: seq<Row>)
    ensures Recast(Insert(row, rows, EarlierRow())) == Insert(row.(name := Coarser(row.name)), Recast(rows), EarlierRow())
  {
    if rows != [] {
      InsertRecast(row, rows[1..]);
      assert Recast(rows)[1..] == Recast(rows[1..]);
    }
  }

  lemma {:induction false} SortRecast(rows: seq<Row>)
    ensures Recast(StableSort(rows, EarlierRow())) == StableSort(Recast(rows), EarlierRow())
  {
    if rows != [] {
      SortRecast(rows[1..]);
      InsertRecast(rows[0], StableSort(rows[1..], EarlierRow()));
      assert Recast(rows)[1..] == Recast(rows[1..]);
    }
  }

  /** Compounding the months of each quarter gives the quarterly split, record for record. */
  lemma MonthsCompoundToQuarters(points: seq<Point>, initialEquity: real)
    requires Clean(points) && initialEquity > 0.0
    ensures JoinSegments(Split(points, Monthly, initialEquity)) == Split(points, Quarterly, initialEquity)
  {
    hide JoinSegments, SegmentsOf, GroupRows, JoinGroups, SoundGroup, StableSort;
    var months := Curve(points, Monthly);
    CurveIsSorted(points, Monthly);
    GroupingPartitions(months);
    JoinedGroupsAreWell(GroupRows(months));
    SegmentsJoin(GroupRows(months), initialEquity);
    MonthGroupsMakeQuarterGroups(months);
    assert Recast(Rows(points, Monthly)) == Rows(points, Quarterly);
    SortRecast(Rows(points, Monthly));
  }

  // ---- the loops -----------------------------------------------------------------

  /** Read and check the points, in order. */
  method ReadRows(points: seq<Point>, mode: Granularity) returns (r: Result<seq<Row>, SegmentError>)
    ensures match PointComplaint(points)
      case Some(error) => r == Err(error)
      case None => Clean(points) && r == Ok(Rows(points, mode))
  {
    CleanWhenNoComplaint(points);
    var rows: seq<Row> := [];
    for i := 0 to |points|
      invariant Clean(points[..i]) && rows == Rows(points[..i], mode)
      invariant PointComplaint(points) == PointComplaint(points[i..])
    {
      if points[i].date.None? { return Err(InvalidDate); }
      if points[i].equity <= 0.0 { return Err(EquityNotPositive); }
      rows := rows + [RowOf(points[i], mode)];
      assert points[i..][1..] == points[i + 1..];
    }
    assert points[..|points|] == points;
    return Ok(rows);
  }

  method GroupByLabel(rows: seq<Row>) returns (groups: seq<Group>)
    ensures groups == GroupRows(rows)
  {
    groups := [];
    for i := 0 to |rows|
      invariant groups == GroupRows(rows[..i])
    {
      assert rows[..i + 1][..i] == rows[..i];
      groups := AddRow(groups, rows[i]);
    }
    assert rows[..|rows|] == rows;
  }

  method CutSegments(groups: seq<Group>, initialEquity: real) returns (segments: seq<Segment>)
    requires WellGrouped(groups) && initialEquity > 0.0
    ensures segments == SegmentsOf(groups, initialEquity)
  {
    hide LastEquity, SoundGroup, SegmentFrom;
    segments := [];
    var previousEnd := initialEquity;
    for k := 0 to |groups|
      invariant previousEnd == EquityAfter(groups, k, initialEquity)
      invariant segments == SegmentsOf(groups, initialEquity)[..k]
    {
      segments := segments + [SegmentFrom(groups[k], previousEnd)];
      previousEnd := LastEquity(groups[k]);
    }
  }

  /** `split_equity_curve_to_segment_returns`. */
  method SplitEquityCurve(points: seq<Point>, granularity: string, initialEquity: real) returns (r: Result<seq<Segment>, SegmentError>)
    ensures match Complaint(points, granularity, initialEquity)
      case Some(error) => r == Err(error)
      case None => Clean(points) && r == Ok(Split(points, ParseGranularity(granularity).value, initialEquity))
    ensures r.Ok? <==> |points| >= 2 && initialEquity > 0.0 && (granularity == "monthly" || granularity == "quarterly") && Clean(points)
    ensures r.Ok? ==> CutByPeriods(r.value, points, if granularity == "monthly" then Monthly else Quarterly)
  {
    hide GroupRows, SegmentsOf, StableSort, PointComplaint, CutByPeriods;
    CleanWhenNoComplaint(points);
    if |points| < 2 { return Err(TooFewPoints); }
    if initialEquity <= 0.0 { return Err(InitialNotPositive); }
    var mode := ParseGranularity(granularity);
    if mode.None? { return Err(UnsupportedGranularity); }
    var read := ReadRows(points, mode.value);
    if read.Err? { return Err(read.error); }
    var rows := StableSort(read.value, EarlierRow());
    CurveIsSorted(points, mode.value);
    GroupingPartitions(rows);
    var groups := GroupByLabel(rows);
    var segments := CutSegments(groups, initialEquity);
    SegmentsArePeriods(points, mode.value, initialEquity);
    return Ok(segments);
  }

  /** `_compound_return_pct`. */
  method CompoundReturnPct(pcts: seq<real>) returns (pct: real)
    ensures pct == (Growth(pcts) - 1.0) * 100.0
  {
    var value := 1.0;
    for i := 0 to |pcts|
      invariant value == Growth(pcts[..i])
    {
      assert pcts[..i + 1][..i] == pcts[..i];
      value := Grown(value, pcts[i]);
    }
    assert pcts[..|pcts|] == pcts;
    pct := (value - 1.0) * 100.0;
  }
}
