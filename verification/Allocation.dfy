/** Selecting and sizing buy candidates against the open positions of the ledger. */
module Allocation {
  import opened Common
  import opened Orders
  import opened Sums
  import opened Sorting
  import opened LedgerSpec

  /** Orders of at most one unit are dust. */
  const MIN_ORDER_SHARES: int := 1
  const MAX_SAFETY_BUFFER: real := 0.005

  datatype Sizing = Equal | ScoreWeighted

  datatype Params = Params(
    maxPositions: int, confidenceWeight: real, strengthWeight: real, minConfidence: Option<real>,
    exposureCap: real, capital: real, sizing: Sizing, minNotional: real, cashBufferRatio: real,
    safetyBuffer: real, allowSameTicker: bool)

  datatype BuyCandidate = BuyCandidate(
    entity: string, ticker: string, confidence: real, strength: real, price: real,
    addBuyEnabled: bool, addBuyMaxCount: int)

  datatype BuyDecision = BuyDecision(
    entity: string, ticker: string, shares: int, notional: real, score: real, purpose: string, target: Option<Id>)

  /** A candidate that passed every filter. */
  datatype Row = Row(score: real, cand: BuyCandidate, purpose: string, target: Option<Id>) {
    predicate IsEntry() { purpose != "add_buy" }
  }

  /** What `decide_buys` reads off the ledger before it looks at the candidates. */
  datatype OpenView = OpenView(
    byEntity: map<string, Id>, tickers: set<string>, count: nat, exposure: map<string, real>, unknown: set<string>)

  function MaxSlots(params: Params): nat { Max(params.maxPositions, 0) }

  function Score(c: BuyCandidate, params: Params): real {
    params.confidenceWeight * c.confidence + params.strengthWeight * c.strength
  }

  /** `minConfidence` None stands for minus infinity. */
  predicate BelowMinConfidence(c: BuyCandidate, params: Params) {
    params.minConfidence.Some? && c.confidence < params.minConfidence.value
  }

  // ---- the view of the open positions --------------------------------------------

  function ExposureIn(ticker: string): Position -> real {
    (p: Position) => if p.ticker == ticker && Active(p) && p.avg > 0.0 then Qty(p.openShares) * p.avg else 0.0
  }

  /** Money at cost that the open positions of a ticker tie up, as far as it is known. */
  ghost function ExposureOf(positions: map<Id, Position>, ticker: string): real {
    SumBy(positions, ExposureIn(ticker))
  }

  function Lookup(m: map<string, real>, k: string): real { if k in m then m[k] else 0.0 }

  /** Tickers with an open position whose cost is unknown. */
  function UnknownTickers(positions: map<Id, Position>): set<string> {
    set id | id in positions && Active(positions[id]) && positions[id].avg <= 0.0 :: positions[id].ticker
  }

  /** Every open entity is found under its own name, and nothing else is. */
  ghost predicate FindsEntities(byEntity: map<string, Id>, positions: map<Id, Position>) {
    && (forall e :: e in byEntity ==> byEntity[e] in positions && Active(positions[byEntity[e]]) && positions[byEntity[e]].entity == e)
    && (forall id :: id in positions && Active(positions[id]) ==> positions[id].entity in byEntity)
  }

  ghost predicate KnowsExposure(exposure: map<string, real>, positions: map<Id, Position>) {
    forall t :: Lookup(exposure, t) == ExposureOf(positions, t)
  }

  /** The view says what it should about the open positions. */
  ghost predicate Views(v: OpenView, positions: map<Id, Position>) {
    && FindsEntities(v.byEntity, positions)
    && v.tickers == ActiveTickers(positions)
    && v.count == |OpenIds(positions)|
    && KnowsExposure(v.exposure, positions)
    && v.unknown == UnknownTickers(positions)
  }

  lemma KnowsNothing(positions: map<Id, Position>)
    requires OpenIds(positions) == {}
    ensures KnowsExposure(map[], positions) && UnknownTickers(positions) == {}
  {
    forall t ensures ExposureOf(positions, t) == 0.0 { NoExposure(positions, t); }
    forall id | id in positions ensures !Active(positions[id]) { assert id !in OpenIds(positions); }
  }

  lemma {:induction false} NoExposure(positions: map<Id, Position>, t: string)
    requires OpenIds(positions) == {}
    ensures ExposureOf(positions, t) == 0.0
    decreases |positions|
  {
    if id :| id in positions {
      assert id !in OpenIds(positions);
      SumByRemove(positions, id, ExposureIn(t));
      assert OpenIds(positions - {id}) <= OpenIds(positions);
      NoExposure(positions - {id}, t);
    } else {
      SumByEmpty(positions, ExposureIn(t));
    }
  }

  lemma KnowsOneMore(exposure: map<string, real>, positions: map<Id, Position>, id: Id, p: Position)
    requires KnowsExposure(exposure, positions) && id !in positions
    ensures KnowsExposure(if Active(p) && p.avg > 0.0 then exposure[p.ticker := Lookup(exposure, p.ticker) + Qty(p.openShares) * p.avg] else exposure,
                          positions[id := p])
  {
    hide Sum, SumBy;
    var now := if Active(p) && p.avg > 0.0 then exposure[p.ticker := Lookup(exposure, p.ticker) + Qty(p.openShares) * p.avg] else exposure;
    forall t ensures Lookup(now, t) == ExposureOf(positions[id := p], t) {
      SumByUpdate(positions, id, p, ExposureIn(t));
      assert Lookup(exposure, t) == ExposureOf(positions, t);
      assert ExposureIn(t)(p) == if p.ticker == t && Active(p) && p.avg > 0.0 then Qty(p.openShares) * p.avg else 0.0;
    }
  }

  lemma UnknownOneMore(positions: map<Id, Position>, id: Id, p: Position)
    requires id !in positions
    ensures UnknownTickers(positions[id := p]) == UnknownTickers(positions) + if Active(p) && p.avg <= 0.0 then {p.ticker} else {}
  {
    var now := positions[id := p];
    forall t ensures t in UnknownTickers(now) <==> t in UnknownTickers(positions) || (Active(p) && p.avg <= 0.0 && t == p.ticker) {
      if t in UnknownTickers(positions) {
        var i :| i in positions && Active(positions[i]) && positions[i].avg <= 0.0 && positions[i].ticker == t;
        assert now[i] == positions[i];
      }
      if t in UnknownTickers(now) {
        var i :| i in now && Active(now[i]) && now[i].avg <= 0.0 && now[i].ticker == t;
        if i != id { assert now[i] == positions[i]; }
      }
      if Active(p) && p.avg <= 0.0 && t == p.ticker { assert now[id] == p; }
    }
  }

  /** Money at cost per ticker over the open positions, and the tickers it cannot be told for. */
  method TickerExposure(positions: map<Id, Position>, ids: seq<Id>) returns (exposure: map<string, real>, unknown: set<string>)
    requires forall id :: id in ids <==> id in OpenIds(positions)
    requires forall i, j :: 0 <= i < j < |ids| ==> ids[i] != ids[j]
    ensures KnowsExposure(exposure, positions) && unknown == UnknownTickers(positions)
  {
    hide KnowsExposure, UnknownTickers;
    exposure, unknown := map[], {};
    ghost var closed := positions - OpenIds(positions);
    ghost var done := closed;
    KnowsNothing(done);
    for k := 0 to |ids|
      invariant done.Keys == closed.Keys + set id | id in ids[..k]
      invariant forall id :: id in done ==> id in positions && done[id] == positions[id]
      invariant KnowsExposure(exposure, done) && unknown == UnknownTickers(done)
    {
      assert ids[k] in OpenIds(positions) by { assert ids[k] in ids; }
      var p := positions[ids[k]];
      assert ids[k] !in done;
      KnowsOneMore(exposure, done, ids[k], p);
      UnknownOneMore(done, ids[k], p);
      if p.avg <= 0.0 {
        unknown := unknown + {p.ticker};
      } else {
        exposure := exposure[p.ticker := Lookup(exposure, p.ticker) + Qty(p.openShares) * p.avg];
      }
      done := done[ids[k] := p];
    }
    assert done == positions by {
      assert ids[..|ids|] == ids;
      forall id | id in positions ensures id in done { if id in OpenIds(positions) { assert id in ids; } }
    }
  }

  /** Where to find the open position of each entity; of several, any one. */
  method IndexEntities(positions: map<Id, Position>, ids: seq<Id>) returns (byEntity: map<string, Id>)
    requires forall id :: id in ids <==> id in OpenIds(positions)
    ensures FindsEntities(byEntity, positions)
  {
    byEntity := map[];
    for k := 0 to |ids|
      invariant forall e :: e in byEntity ==> byEntity[e] in positions && Active(positions[byEntity[e]]) && positions[byEntity[e]].entity == e
      invariant forall i :: 0 <= i < k ==> ids[i] in positions && positions[ids[i]].entity in byEntity
    {
      assert ids[k] in ids;
      byEntity := byEntity[positions[ids[k]].entity := ids[k]];
    }
    forall id | id in positions && Active(positions[id]) ensures positions[id].entity in byEntity {
      assert id in OpenIds(positions);
      assert id in ids;
    }
  }

  method ViewOpen(positions: map<Id, Position>, ids: seq<Id>) returns (v: OpenView)
    requires forall id :: id in ids <==> id in OpenIds(positions)
    requires forall i, j :: 0 <= i < j < |ids| ==> ids[i] != ids[j]
    requires |ids| == |OpenIds(positions)|
    ensures Views(v, positions)
  {
    var byEntity := IndexEntities(positions, ids);
    var exposure, unknown := TickerExposure(positions, ids);
    v := OpenView(byEntity, ActiveTickers(positions), |ids|, exposure, unknown);
  }

  // ---- filtering -----------------------------------------------------------------

  /** The row of a candidate that passes every filter. */
  function EligibleRow(c: BuyCandidate, v: OpenView, positions: map<Id, Position>, params: Params): Option<Row>
    requires forall e :: e in v.byEntity ==> v.byEntity[e] in positions
  {
    if c.ticker == "" || c.price <= 0.0 then None
    else if BelowMinConfidence(c, params) then None
    else if c.entity in v.byEntity then
      var id := v.byEntity[c.entity];
      if !c.addBuyEnabled then None
      else if positions[id].addBuys >= c.addBuyMaxCount then None
      else if c.ticker in v.unknown then None
      else if Score(c, params) <= 0.0 then None
      else Some(Row(Score(c, params), c, "add_buy", Some(id)))
    else if !params.allowSameTicker && c.ticker in v.tickers then None
    else if Score(c, params) <= 0.0 then None
    else Some(Row(Score(c, params), c, "entry", None))
  }

  lemma RowIsOf(c: BuyCandidate, v: OpenView, positions: map<Id, Position>, params: Params)
    requires forall e :: e in v.byEntity ==> v.byEntity[e] in positions
    ensures var row := EligibleRow(c, v, positions, params); row.Some? ==> row.value.cand == c
  {
  }

  /** The rows of the candidates that pass, in the order of the candidates. */
  function EligibleOf(cands: seq<BuyCandidate>, v: OpenView, positions: map<Id, Position>, params: Params): seq<Row>
    requires forall e :: e in v.byEntity ==> v.byEntity[e] in positions
  {
    if cands == [] then []
    else
      var front, row := EligibleOf(cands[..|cands| - 1], v, positions, params), EligibleRow(cands[|cands| - 1], v, positions, params);
      if row.Some? then front + [row.value] else front
  }

  method EligibleRows(cands: seq<BuyCandidate>, v: OpenView, positions: map<Id, Position>, params: Params) returns (rows: seq<Row>)
    requires forall e :: e in v.byEntity ==> v.byEntity[e] in positions
    ensures forall r :: r in rows ==> r.cand in cands && EligibleRow(r.cand, v, positions, params) == Some(r)
    ensures forall c :: c in cands && EligibleRow(c, v, positions, params).Some? ==> EligibleRow(c, v, positions, params).value in rows
    ensures rows == EligibleOf(cands, v, positions, params)
  {
    hide EligibleRow;
    rows := [];
    for k := 0 to |cands|
      invariant rows == EligibleOf(cands[..k], v, positions, params)
      invariant forall r :: r in rows ==> r.cand in cands && EligibleRow(r.cand, v, positions, params) == Some(r)
      invariant forall c :: c in cands[..k] && EligibleRow(c, v, positions, params).Some? ==> EligibleRow(c, v, positions, params).value in rows
    {
      assert cands[..k + 1][..k] == cands[..k];
      RowIsOf(cands[k], v, positions, params);
      var row := EligibleRow(cands[k], v, positions, params);
      if row.Some? {
        rows := rows + [row.value];
      }
    }
    assert cands[..|cands|] == cands;
  }

  lemma ScoreIs(c: BuyCandidate, params: Params)
    ensures Score(c, params) == params.confidenceWeight * c.confidence + params.strengthWeight * c.strength
  {
  }

  /** Who competes, told from candidate and positions: a confident, priced candidate with a positive score; the entity's own open
      position wants an add-buy that is enabled and not used up, in a ticker whose cost is known; without one the ticker must be
      free, unless tickers may be held twice. */
  lemma EligibleExactlyWhen(c: BuyCandidate, v: OpenView, positions: map<Id, Position>, params: Params)
    requires Views(v, positions)
    ensures var score := params.confidenceWeight * c.confidence + params.strengthWeight * c.strength;
      var fit := c.ticker != "" && c.price > 0.0 && score > 0.0 && !(params.minConfidence.Some? && c.confidence < params.minConfidence.value);
      var row := EligibleRow(c, v, positions, params);
      && (row.Some? ==> row.value.score == score && row.value.cand == c)
      && (forall id :: id in positions && Active(positions[id]) && positions[id].entity == c.entity && v.byEntity[c.entity] == id ==>
            (row == Some(Row(score, c, "add_buy", Some(id))) <==>
               fit && c.addBuyEnabled && positions[id].addBuys < c.addBuyMaxCount
               && !(exists k :: k in positions && Active(positions[k]) && positions[k].ticker == c.ticker && positions[k].avg <= 0.0)))
      && ((forall id :: id in positions && Active(positions[id]) ==> positions[id].entity != c.entity) ==>
            (row == Some(Row(score, c, "entry", None)) <==>
               fit && (params.allowSameTicker || forall id :: id in positions && Active(positions[id]) ==> positions[id].ticker != c.ticker)))
      && (row.Some? ==> row.value.purpose == (if c.entity in v.byEntity then "add_buy" else "entry"))
  {
    hide KnowsExposure, Score;
    ScoreIs(c, params);
    assert c.ticker in UnknownTickers(positions) <==>
      exists k :: k in positions && Active(positions[k]) && positions[k].ticker == c.ticker && positions[k].avg <= 0.0;
    assert c.ticker in ActiveTickers(positions) <==> exists k :: k in positions && Active(positions[k]) && positions[k].ticker == c.ticker;
  }

  // ---- selecting -----------------------------------------------------------------

  predicate KeyLess(a: Row, b: Row) {
    a.score < b.score ||
    (a.score == b.score && (a.cand.confidence < b.cand.confidence ||
    (a.cand.confidence == b.cand.confidence && (a.cand.strength < b.cand.strength ||
    (a.cand.strength == b.cand.strength && StrLess(a.cand.entity, b.cand.entity))))))
  }

  /** The selection order: the greater key goes first. */
  function KeyAtLeast(): (Row, Row) -> bool { (a: Row, b: Row) => !KeyLess(a, b) }

  lemma KeyOrderIsTotal()
    ensures TotalPreorder(KeyAtLeast())
  {
    forall a: Row, b: Row ensures KeyAtLeast()(a, b) || KeyAtLeast()(b, a) { StrLessTotal(a.cand.entity, b.cand.entity); }
    forall a: Row, b: Row, c: Row | KeyAtLeast()(a, b) && KeyAtLeast()(b, c) ensures KeyAtLeast()(a, c) {
      if !StrLess(a.cand.entity, b.cand.entity) && !StrLess(b.cand.entity, c.cand.entity) {
        StrLessTransitive(a.cand.entity, b.cand.entity, c.cand.entity);
      }
    }
  }

  /** The greater score goes first; between equal scores the greater confidence, then the greater strength, then the greater name. */
  lemma KeysCompareInOrder(a: Row, b: Row)
    ensures a.score > b.score ==> !KeyAtLeast()(b, a)
    ensures a.score == b.score && a.cand.confidence > b.cand.confidence ==> !KeyAtLeast()(b, a)
    ensures a.score == b.score && a.cand.confidence == b.cand.confidence && a.cand.strength > b.cand.strength ==> !KeyAtLeast()(b, a)
    ensures a.score == b.score && a.cand.confidence == b.cand.confidence && a.cand.strength == b.cand.strength ==>
              (KeyAtLeast()(a, b) <==> !StrLess(a.cand.entity, b.cand.entity))
  {
  }

  /** What a new entry competes for: its ticker, or in entity mode its entity. */
  function SlotKey(r: Row, params: Params): string {
    if params.allowSameTicker then r.cand.entity else r.cand.ticker
  }

  /** The slot keys of the entries among the selected rows. */
  function EntryKeys(selected: seq<Row>, params: Params): set<string> {
    if selected == [] then {}
    else
      var last := selected[|selected| - 1];
      EntryKeys(selected[..|selected| - 1], params) + if last.IsEntry() then {SlotKey(last, params)} else {}
  }

  function CountEntries(selected: seq<Row>): nat {
    if selected == [] then 0
    else CountEntries(selected[..|selected| - 1]) + if selected[|selected| - 1].IsEntry() then 1 else 0
  }

  lemma {:induction false} EntryKeysAreTheirs(selected: seq<Row>, params: Params)
    ensures forall k :: k in EntryKeys(selected, params) <==> exists r :: r in selected && r.IsEntry() && SlotKey(r, params) == k
  {
    if selected != [] {
      var front, last := selected[..|selected| - 1], selected[|selected| - 1];
      EntryKeysAreTheirs(front, params);
      assert selected == front + [last];
      forall k ensures k in EntryKeys(selected, params) <==> exists r :: r in selected && r.IsEntry() && SlotKey(r, params) == k {
        if k in EntryKeys(front, params) {
          var r :| r in front && r.IsEntry() && SlotKey(r, params) == k;
          assert r in selected;
        } else if last.IsEntry() && SlotKey(last, params) == k {
          assert last in selected;
        }
      }
    }
  }

  ghost predicate DistinctEntries(selected: seq<Row>, params: Params) {
    forall i, j :: 0 <= i < j < |selected| && selected[i].IsEntry() && selected[j].IsEntry() ==>
      SlotKey(selected[i], params) != SlotKey(selected[j], params)
  }

  /** Why a row may be left out: a rival for the same slot key with at least its key was selected, or every
      slot went to rows with at least its key. */
  ghost predicate RightlyLeftOut(r: Row, selected: seq<Row>, slots: nat, params: Params) {
    && r.IsEntry()
    && ((exists q :: q in selected && q.IsEntry() && SlotKey(q, params) == SlotKey(r, params) && KeyAtLeast()(q, r))
        || (CountEntries(selected) == slots && forall q :: q in selected && q.IsEntry() ==> KeyAtLeast()(q, r)))
  }

  lemma AppendSelected(before: seq<Row>, row: Row, params: Params)
    ensures EntryKeys(before + [row], params) == EntryKeys(before, params) + if row.IsEntry() then {SlotKey(row, params)} else {}
    ensures CountEntries(before + [row]) == CountEntries(before) + if row.IsEntry() then 1 else 0
  {
    assert (before + [row])[..|before|] == before;
  }

  lemma StillRightlyLeftOut(r: Row, before: seq<Row>, row: Row, slots: nat, params: Params)
    requires RightlyLeftOut(r, before, slots, params)
    requires row.IsEntry() ==> CountEntries(before) < slots
    ensures RightlyLeftOut(r, before + [row], slots, params)
  {
    AppendSelected(before, row, params);
    if q :| q in before && q.IsEntry() && SlotKey(q, params) == SlotKey(r, params) && KeyAtLeast()(q, r) {
      assert q in before + [row];
    }
  }

  /** The rows of the first `k` whose place was not chosen are rightly left out. */
  ghost predicate LeftOutRightly(rows: seq<Row>, k: nat, places: seq<nat>, selected: seq<Row>, slots: nat, params: Params)
    requires k <= |rows|
  {
    forall i :: 0 <= i < k && i !in places ==> RightlyLeftOut(rows[i], selected, slots, params)
  }

  /** The selected rows stand at these places among the first `k`, in this order. */
  ghost predicate StandAt(rows: seq<Row>, k: nat, places: seq<nat>, selected: seq<Row>)
    requires k <= |rows|
  {
    && |places| == |selected| && (forall i :: 0 <= i < |places| ==> places[i] < k && rows[places[i]] == selected[i])
    && (forall i, j :: 0 <= i < j < |places| ==> places[i] < places[j])
  }

  lemma SelectOne(rows: seq<Row>, k: nat, places: seq<nat>, selected: seq<Row>, slots: nat, params: Params)
    requires k < |rows| && LeftOutRightly(rows, k, places, selected, slots, params) && StandAt(rows, k, places, selected)
    requires DistinctEntries(selected, params)
    requires rows[k].IsEntry() ==> SlotKey(rows[k], params) !in EntryKeys(selected, params) && CountEntries(selected) < slots
    ensures LeftOutRightly(rows, k + 1, places + [k], selected + [rows[k]], slots, params)
    ensures StandAt(rows, k + 1, places + [k], selected + [rows[k]])
    ensures DistinctEntries(selected + [rows[k]], params)
  {
    hide RightlyLeftOut, CountEntries, EntryKeys, SlotKey;
    forall i | 0 <= i < k + 1 && i !in places + [k] ensures RightlyLeftOut(rows[i], selected + [rows[k]], slots, params) {
      assert i !in places && (places + [k])[|places|] == k;
      StillRightlyLeftOut(rows[i], selected, rows[k], slots, params);
    }
    EntryKeysAreTheirs(selected, params);
  }

  lemma AllAhead(rows: seq<Row>, k: nat, places: seq<nat>, selected: seq<Row>)
    requires k < |rows| && SortedBy(rows, KeyAtLeast()) && StandAt(rows, k, places, selected)
    ensures forall q :: q in selected ==> KeyAtLeast()(q, rows[k])
  {
    hide KeyAtLeast;
    forall q | q in selected ensures KeyAtLeast()(q, rows[k]) {
      var i :| 0 <= i < |selected| && selected[i] == q;
      assert KeyAtLeast()(rows[places[i]], rows[k]);
    }
  }

  /** Every row selected so far has at least the key of the row at hand, so a rival or full slots excuse leaving it out. */
  lemma LeaveOne(rows: seq<Row>, k: nat, places: seq<nat>, selected: seq<Row>, slots: nat, params: Params)
    requires k < |rows| && SortedBy(rows, KeyAtLeast())
    requires LeftOutRightly(rows, k, places, selected, slots, params) && StandAt(rows, k, places, selected)
    requires rows[k].IsEntry()
    requires SlotKey(rows[k], params) in EntryKeys(selected, params) || CountEntries(selected) == slots
    ensures LeftOutRightly(rows, k + 1, places, selected, slots, params)
    ensures StandAt(rows, k + 1, places, selected)
  {
    hide SortedBy, KeyAtLeast, SlotKey, EntryKeys, CountEntries;
    AllAhead(rows, k, places, selected);
    EntryKeysAreTheirs(selected, params);
  }

  /** Walk the rows from the greatest key down; add-buys always pass, an entry needs a slot key not yet taken and a free slot.
      The places of the selected rows are handed out as well. */
  method SelectRows(rows: seq<Row>, slots: nat, params: Params) returns (selected: seq<Row>, ghost places: seq<nat>)
    requires SortedBy(rows, KeyAtLeast())
    ensures StandAt(rows, |rows|, places, selected) && LeftOutRightly(rows, |rows|, places, selected, slots, params)
    ensures DistinctEntries(selected, params) && CountEntries(selected) <= slots
  {
    hide StandAt, LeftOutRightly, DistinctEntries, EntryKeys, CountEntries, RightlyLeftOut, KeyAtLeast, SortedBy, SlotKey;
    NothingSelected(rows, slots, params);
    selected, places := [], [];
    var taken: set<string> := {};
    for k := 0 to |rows|
      invariant StandAt(rows, k, places, selected)
      invariant taken == EntryKeys(selected, params) && |taken| == CountEntries(selected) <= slots
      invariant DistinctEntries(selected, params)
      invariant LeftOutRightly(rows, k, places, selected, slots, params)
    {
      var row := rows[k];
      AppendSelected(selected, row, params);
      if row.purpose == "add_buy" {
        SelectOne(rows, k, places, selected, slots, params);
        selected, places := selected + [row], places + [k];
      } else if SlotKey(row, params) in taken {
        LeaveOne(rows, k, places, selected, slots, params);
      } else if |taken| >= slots {
        LeaveOne(rows, k, places, selected, slots, params);
      } else {
        SelectOne(rows, k, places, selected, slots, params);
        selected, places := selected + [row], places + [k];
        taken := taken + {SlotKey(row, params)};
      }
    }
  }

  lemma NothingSelected(rows: seq<Row>, slots: nat, params: Params)
    ensures StandAt(rows, 0, [], []) && LeftOutRightly(rows, 0, [], [], slots, params) && DistinctEntries([], params)
    ensures EntryKeys([], params) == {} && CountEntries([]) == 0
  {
  }

  lemma SelectedStand(rows: seq<Row>, places: seq<nat>, selected: seq<Row>)
    requires StandAt(rows, |rows|, places, selected)
    ensures forall r :: r in selected ==> r in rows
  {
  }

  // ---- sizing --------------------------------------------------------------------

  function SumSeq(w: seq<real>): real {
    if w == [] then 0.0 else SumSeq(w[..|w| - 1]) + w[|w| - 1]
  }

  function Positive(scores: seq<real>): seq<real> { seq(|scores|, i requires 0 <= i < |scores| => MaxR(scores[i], 0.0)) }

  function Repeat(c: real, n: nat): seq<real> { seq(n, _ => c) }

  function Scaled(w: seq<real>, total: real): seq<real>
    requires total != 0.0
  {
    seq(|w|, i requires 0 <= i < |w| => w[i] / total)
  }

  /** The share of the investable capital each selected row gets. */
  function Weights(scores: seq<real>, sizing: Sizing): seq<real> {
    if scores == [] then []
    else
      var total := SumSeq(Positive(scores));
      if sizing == Equal || total <= 0.0 then Repeat(1.0 / |scores| as real, |scores|)
      else Scaled(Positive(scores), total)
  }

  lemma PositiveTotal(scores: seq<real>)
    ensures |Positive(scores)| == |scores|
    ensures SumSeq(Positive(scores)) > 0.0 <==> exists i :: 0 <= i < |scores| && scores[i] > 0.0
  {
    hide SumSeq;
    var positive := Positive(scores);
    PositiveSum(positive);
    if i :| 0 <= i < |scores| && scores[i] > 0.0 {
      assert positive[i] == scores[i];
    } else {
      assert forall i :: 0 <= i < |positive| ==> positive[i] == 0.0;
    }
  }

  lemma EqualParts(n: nat)
    requires n > 0
    ensures var parts := Repeat(1.0 / n as real, n); |parts| == n && forall i :: 0 <= i < n ==> parts[i] * n as real == 1.0
  {
    EqualShare(n);
  }

  lemma PartsInProportion(scores: seq<real>, total: real)
    requires total > 0.0
    ensures var parts := Scaled(Positive(scores), total);
      && |parts| == |scores|
      && forall i, j :: 0 <= i < |scores| && 0 <= j < |scores| ==> parts[i] * MaxR(scores[j], 0.0) == parts[j] * MaxR(scores[i], 0.0)
  {
    var parts := Scaled(Positive(scores), total);
    forall i, j | 0 <= i < |scores| && 0 <= j < |scores| ensures parts[i] * MaxR(scores[j], 0.0) == parts[j] * MaxR(scores[i], 0.0) {
      Proportional(MaxR(scores[i], 0.0), MaxR(scores[j], 0.0), total);
    }
  }

  lemma EqualShare(n: nat)
    requires n > 0
    ensures 1.0 / n as real * n as real == 1.0
  {
  }

  lemma Proportional(a: real, b: real, total: real)
    requires total > 0.0
    ensures a / total * b == b / total * a
  {
    assert a / total * total == a && b / total * total == b;
    assert (a / total * b) * total == a * b;
    assert (b / total * a) * total == a * b;
  }

  /** A sum of non-negative numbers is at least each of them, and positive exactly when one is. */
  lemma {:induction false} PositiveSum(w: seq<real>)
    requires forall i :: 0 <= i < |w| ==> w[i] >= 0.0
    ensures SumSeq(w) >= 0.0 && forall i :: 0 <= i < |w| ==> w[i] <= SumSeq(w)
    ensures (forall i :: 0 <= i < |w| ==> w[i] == 0.0) ==> SumSeq(w) == 0.0
  {
    if w != [] { PositiveSum(w[..|w| - 1]); }
  }

  lemma {:induction false} SumOfEqual(w: seq<real>, c: real)
    requires forall i :: 0 <= i < |w| ==> w[i] == c
    ensures SumSeq(w) == |w| as real * c
  {
    if w != [] { SumOfEqual(w[..|w| - 1], c); }
  }

  lemma {:induction false} SumScaled(w: seq<real>, total: real)
    requires total > 0.0
    ensures SumSeq(Scaled(w, total)) == SumSeq(w) / total
  {
    if w != [] {
      var n := |w| - 1;
      SumScaled(w[..n], total);
      assert Scaled(w, total)[..n] == Scaled(w[..n], total);
      DivAdds(SumSeq(w[..n]), w[n], total);
    }
  }

  lemma DivAdds(a: real, b: real, c: real)
    requires c != 0.0
    ensures (a + b) / c == a / c + b / c
  {
  }

  lemma EqualShares(n: nat)
    requires n > 0
    ensures SumSeq(Repeat(1.0 / n as real, n)) == 1.0 && 1.0 / n as real >= 0.0
  {
    SumOfEqual(Repeat(1.0 / n as real, n), 1.0 / n as real);
  }

  lemma ScaledShares(w: seq<real>)
    requires SumSeq(w) > 0.0 && forall i :: 0 <= i < |w| ==> w[i] >= 0.0
    ensures SumSeq(Scaled(w, SumSeq(w))) == 1.0
    ensures forall i :: 0 <= i < |w| ==> Scaled(w, SumSeq(w))[i] >= 0.0
  {
    var total := SumSeq(w);
    SumScaled(w, total);
    SelfQuotient(total);
    forall i | 0 <= i < |w| ensures Scaled(w, total)[i] >= 0.0 { QuotientSign(w[i], total); }
  }

  /** The weights split the whole: none is negative and together they are one. */
  lemma WeightsSplitTheWhole(scores: seq<real>, sizing: Sizing)
    requires scores != []
    ensures |Weights(scores, sizing)| == |scores| && SumSeq(Weights(scores, sizing)) == 1.0
    ensures forall i :: 0 <= i < |scores| ==> Weights(scores, sizing)[i] >= 0.0
  {
    if sizing == Equal || SumSeq(Positive(scores)) <= 0.0 {
      EqualShares(|scores|);
    } else {
      ScaledShares(Positive(scores));
    }
  }

  lemma SelfQuotient(x: real)
    requires x != 0.0
    ensures x / x == 1.0
  {
  }

  lemma QuotientSign(a: real, b: real)
    requires a >= 0.0 && b > 0.0
    ensures a / b >= 0.0
  {
  }

  function CashUseRatio(ratio: real): real { MaxR(0.0, MinR(ratio, 1.0)) }

  function SafetyBuffer(value: real): real { MaxR(0.0, MinR(value, MAX_SAFETY_BUFFER)) }

  /** Share quantity rounded down to whole units; dust counts as nothing. */
  function FloorShares(shares: real): int {
    if shares <= 0.0 then 0
    else if (shares * 1_000_000.0).Floor <= MIN_ORDER_SHARES then 0 else (shares * 1_000_000.0).Floor
  }

  function Investable(params: Params): real { params.capital * CashUseRatio(params.cashBufferRatio) }

  /** What a weight asks for. */
  function Desired(params: Params, weight: real): real { Investable(params) * weight }

  function CapNotional(params: Params): real { params.capital * MaxR(params.exposureCap, 0.0) }

  function Cost(units: int, price: real): real { Qty(units) * price }

  /** Half a unit at the given price: what rounding to whole units can add to an order. */
  function HalfUnit(price: real): real { 0.0000005 * price }

  /** The money a row of the given weight may spend when the ticker already ties up `used`, and whether the cap cut it. */
  function OrderNotional(weight: real, used: real, params: Params): (real, bool) {
    var buffer := SafetyBuffer(params.safetyBuffer);
    var desired := Desired(params, weight);
    var allowed := MaxR(0.0, CapNotional(params) - used);
    var capLimited := allowed <= 0.0 || desired > allowed + 0.000000001;
    (MinR(desired, if capLimited && buffer > 0.0 then allowed * (1.0 - buffer) else allowed), capLimited)
  }

  lemma NotionalBounds(weight: real, used: real, params: Params)
    ensures OrderNotional(weight, used, params).0 <= Desired(params, weight)
    ensures OrderNotional(weight, used, params).0 <= MaxR(0.0, CapNotional(params) - used)
  {
    ShrinkBound(MaxR(0.0, CapNotional(params) - used), SafetyBuffer(params.safetyBuffer));
  }

  lemma ShrinkBound(x: real, part: real)
    requires x >= 0.0 && part >= 0.0
    ensures x * (1.0 - part) <= x
  {
    assert x * part >= 0.0;
  }

  /** The units bought for a row; `None` when the money is too little or the order is dust. */
  function SizeRow(price: real, weight: real, used: real, params: Params): Option<int>
    requires price > 0.0
  {
    var (notional, capLimited) := OrderNotional(weight, used, params);
    if notional <= MaxR(params.minNotional, 0.0) then None
    else
      var shares := if capLimited && SafetyBuffer(params.safetyBuffer) > 0.0 then FloorShares(notional / price) else Units(notional / price);
      if shares <= MIN_ORDER_SHARES then None else Some(shares)
  }

  lemma RoundingCost(notional: real, price: real, shares: int)
    requires price > 0.0 && notional > 0.0
    requires shares == FloorShares(notional / price) || shares == Units(notional / price)
    ensures Cost(shares, price) <= notional + HalfUnit(price)
  {
    QuotientSign(notional, price);
    CostBound(Qty(shares), notional, price);
  }

  lemma CostBound(shares: real, notional: real, price: real)
    requires price > 0.0 && shares <= notional / price + 0.0000005
    ensures shares * price <= notional + 0.0000005 * price
  {
    var exact := notional / price;
    assert exact * price == notional;
    ScaleBound(shares, exact + 0.0000005, price);
  }

  lemma ScaleBound(a: real, b: real, c: real)
    requires a <= b && c >= 0.0
    ensures a * c <= b * c
  {
  }

  /** An order stays within what its weight asks for and within what the cap leaves, up to half a unit. */
  lemma SizeRowBounds(price: real, weight: real, used: real, params: Params)
    requires price > 0.0 && SizeRow(price, weight, used, params).Some?
    ensures SizeRow(price, weight, used, params).value > MIN_ORDER_SHARES
    ensures var cost := Cost(SizeRow(price, weight, used, params).value, price);
            && cost <= Desired(params, weight) + HalfUnit(price)
            && used + cost <= CapNotional(params) + HalfUnit(price)
  {
    hide Investable, Desired, CapNotional, Cost, HalfUnit;
    NotionalBounds(weight, used, params);
    RoundingCost(OrderNotional(weight, used, params).0, price, SizeRow(price, weight, used, params).value);
  }

  /** `x` cut to the range from zero to `top`. */
  function Clip(x: real, top: real): real { if x <= 0.0 then 0.0 else if x >= top then top else x }

  /** The money a weight asks for. */
  function Asked(weight: real, params: Params): real { params.capital * Clip(params.cashBufferRatio, 1.0) * weight }

  /** The money the cap leaves in a ticker that ties up `used`. */
  function Room(used: real, params: Params): real { params.capital * (if params.exposureCap > 0.0 then params.exposureCap else 0.0) - used }

  predicate CapCuts(weight: real, used: real, params: Params) { Room(used, params) <= 0.0 || Asked(weight, params) > Room(used, params) + 0.000000001 }

  /** The money an order may spend: what is asked for, or what is left in the room, less the buffer when the cap cuts it. */
  function Allowed(weight: real, used: real, params: Params): real {
    var left := Room(used, params) * (if CapCuts(weight, used, params) then 1.0 - Clip(params.safetyBuffer, 0.005) else 1.0);
    if Asked(weight, params) <= left then Asked(weight, params) else left
  }

  lemma AllowedIsNotional(weight: real, used: real, params: Params)
    ensures Room(used, params) > 0.0 ==> OrderNotional(weight, used, params) == (Allowed(weight, used, params), CapCuts(weight, used, params))
    ensures Room(used, params) <= 0.0 ==> OrderNotional(weight, used, params).0 <= 0.0
  {
    hide Asked, Desired, Room, CapNotional;
    AskedIsDesired(weight, used, params);
    ClipIs(params.cashBufferRatio, params.safetyBuffer);
    var room := Room(used, params);
    assert room * 1.0 == room && room * (1.0 - 0.0) == room;
    ShrinkBound(MaxR(room, 0.0), Clip(params.safetyBuffer, 0.005));
  }

  lemma AskedIsDesired(weight: real, used: real, params: Params)
    ensures Asked(weight, params) == Desired(params, weight) && Room(used, params) == CapNotional(params) - used
  {
    ClipIs(params.cashBufferRatio, params.safetyBuffer);
  }

  lemma ClipIs(ratio: real, buffer: real)
    ensures CashUseRatio(ratio) == Clip(ratio, 1.0) && SafetyBuffer(buffer) == Clip(buffer, 0.005)
  {
  }

  /** The order for a row costs what is allowed, to the nearest unit, or to the unit below where a buffer cut it; there is none
      exactly when nothing is left, or what is allowed is not above the minimum or is dust. */
  lemma SizeRowExactly(price: real, weight: real, used: real, params: Params)
    requires price > 0.0
    ensures var size, amount := SizeRow(price, weight, used, params), 1_000_000.0 * Allowed(weight, used, params);
      var down := CapCuts(weight, used, params) && params.safetyBuffer > 0.0;
      && (size.Some? <==>
            && Room(used, params) > 0.0 && Allowed(weight, used, params) > 0.0 && Allowed(weight, used, params) > params.minNotional
            && amount >= (if down then 2.0 else 1.5) * price)
      && (size.Some? ==>
            if down then size.value as real * price <= amount < (size.value + 1) as real * price
            else (size.value as real - 0.5) * price <= amount <= (size.value as real + 0.5) * price)
  {
    hide Allowed, CapCuts, Room, OrderNotional, Units, FloorShares;
    AllowedIsNotional(weight, used, params);
    ClipIs(params.cashBufferRatio, params.safetyBuffer);
    var notional := Allowed(weight, used, params);
    if Room(used, params) > 0.0 && notional > MaxR(params.minNotional, 0.0) {
      NearestUnits(notional, price);
      UnitsBelow(notional, price);
    }
  }

  lemma NearestUnits(notional: real, price: real)
    requires price > 0.0
    ensures var amount, near := 1_000_000.0 * notional, Units(notional / price);
      && (near as real - 0.5) * price <= amount <= (near as real + 0.5) * price
      && (near > MIN_ORDER_SHARES <==> amount >= 1.5 * price)
  {
    hide RoundHalfEven;
    QuotientTimes(notional, price);
    NearestTo(notional / price, price, notional);
  }

  lemma QuotientTimes(a: real, b: real)
    requires b != 0.0
    ensures a / b * b == a
  {
  }

  lemma NearestTo(shares: real, price: real, notional: real)
    requires price > 0.0 && shares * price == notional
    ensures var amount, near := 1_000_000.0 * notional, Units(shares);
      && (near as real - 0.5) * price <= amount <= (near as real + 0.5) * price
      && (near > MIN_ORDER_SHARES <==> amount >= 1.5 * price)
  {
    hide RoundHalfEven;
    var near := Units(shares);
    NearestAboveOne(shares * 1_000_000.0);
    PricedAtMost(near as real - 0.5, shares, price, notional);
    PricedAtLeast(shares, near as real + 0.5, price, notional);
    if near > 1 { PricedAtMost(1.5, shares, price, notional); } else { PricedBelow(shares, 1.5, price, notional); }
  }

  lemma UnitsBelow(notional: real, price: real)
    requires notional > 0.0 && price > 0.0
    ensures var amount, below := 1_000_000.0 * notional, FloorShares(notional / price);
      && (below > MIN_ORDER_SHARES <==> amount >= 2.0 * price)
      && (below > MIN_ORDER_SHARES ==> below as real * price <= amount < (below + 1) as real * price)
  {
    QuotientTimes(notional, price);
    QuotientSign(notional, price);
    WholeBelow(notional / price, price, notional);
  }

  lemma WholeBelow(shares: real, price: real, notional: real)
    requires price > 0.0 && shares * price == notional && shares > 0.0
    ensures var amount, below := 1_000_000.0 * notional, FloorShares(shares);
      && (below > MIN_ORDER_SHARES <==> amount >= 2.0 * price)
      && (below > MIN_ORDER_SHARES ==> below as real * price <= amount < (below + 1) as real * price)
  {
    var floor := (shares * 1_000_000.0).Floor;
    PricedAtMost(floor as real, shares, price, notional);
    PricedBelow(shares, (floor + 1) as real, price, notional);
    if floor > 1 { PricedAtMost(2.0, shares, price, notional); } else { PricedBelow(shares, 2.0, price, notional); }
  }

  /** A bound on units is a bound on what they cost. */
  lemma PricedAtMost(units: real, shares: real, price: real, notional: real)
    requires price > 0.0 && units <= shares * 1_000_000.0 && shares * price == notional
    ensures units * price <= 1_000_000.0 * notional
  {
    ScaleBound(units, shares * 1_000_000.0, price);
    InMillionths(shares, price);
  }

  lemma PricedAtLeast(shares: real, units: real, price: real, notional: real)
    requires price > 0.0 && shares * 1_000_000.0 <= units && shares * price == notional
    ensures 1_000_000.0 * notional <= units * price
  {
    ScaleBound(shares * 1_000_000.0, units, price);
    InMillionths(shares, price);
  }

  lemma PricedBelow(shares: real, units: real, price: real, notional: real)
    requires price > 0.0 && shares * 1_000_000.0 < units && shares * price == notional
    ensures 1_000_000.0 * notional < units * price
  {
    ScaleStrictly(shares * 1_000_000.0, units, price);
    InMillionths(shares, price);
  }

  lemma InMillionths(shares: real, price: real)
    ensures (shares * 1_000_000.0) * price == 1_000_000.0 * (shares * price)
  {
  }

  /** Rounded to the nearest, more than one unit is one and a half or more. */
  lemma NearestAboveOne(x: real)
    ensures RoundHalfEven(x) > 1 <==> x >= 1.5
  {
  }

  lemma Compared(a: real, b: real, c: real)
    requires c > 0.0
    ensures a <= b <==> a * c <= b * c
  {
    if a <= b { ScaleBound(a, b, c); } else { ScaleStrictly(b, a, c); }
  }

  lemma ScaleStrictly(a: real, b: real, c: real)
    requires a < b && c > 0.0
    ensures a * c < b * c
  {
  }

  /** In particular, a weight the cap leaves room for gets what it asks for, up to half a unit either way; and one the cap cuts gets
      all that is left less the buffer, but for one unit. */
  lemma SizeRowFromBelow(price: real, weight: real, used: real, params: Params)
    requires price > 0.0 && SizeRow(price, weight, used, params).Some?
    ensures var cost := Cost(SizeRow(price, weight, used, params).value, price);
      && (Asked(weight, params) <= Room(used, params) ==> Asked(weight, params) - HalfUnit(price) <= cost <= Asked(weight, params) + HalfUnit(price))
      && (Asked(weight, params) > Room(used, params) ==>
            cost + 2.0 * HalfUnit(price) >= Room(used, params) * (1.0 - Clip(params.safetyBuffer, 0.005)))
  {
    hide Asked, Room, HalfUnit, Cost, SizeRow, Clip, Allowed;
    SizeRowExactly(price, weight, used, params);
    var units := SizeRow(price, weight, used, params).value;
    CostInUnits(units, price);
    AllowedFromBelow(weight, used, params);
  }

  lemma CostInUnits(units: int, price: real)
    ensures 1_000_000.0 * Cost(units, price) == units as real * price && 1_000_000.0 * HalfUnit(price) == 0.5 * price
    ensures (units as real - 0.5) * price == units as real * price - 0.5 * price
    ensures (units as real + 0.5) * price == units as real * price + 0.5 * price
    ensures (units + 1) as real * price == units as real * price + price
  {
  }

  lemma AllowedFromBelow(weight: real, used: real, params: Params)
    requires Room(used, params) > 0.0
    ensures Asked(weight, params) <= Room(used, params) ==> Allowed(weight, used, params) == Asked(weight, params) && !CapCuts(weight, used, params)
    ensures Asked(weight, params) > Room(used, params) ==>
              Allowed(weight, used, params) >= Room(used, params) * (1.0 - Clip(params.safetyBuffer, 0.005))
  {
    hide Asked, Room;
    ShrinkBound(Room(used, params), Clip(params.safetyBuffer, 0.005));
  }

  function CountEntryDecisions(ds: seq<BuyDecision>): nat {
    if ds == [] then 0
    else CountEntryDecisions(ds[..|ds| - 1]) + if ds[|ds| - 1].purpose != "add_buy" then 1 else 0
  }

  /** New money the decisions commit. */
  function TotalNotional(ds: seq<BuyDecision>): real {
    if ds == [] then 0.0 else TotalNotional(ds[..|ds| - 1]) + ds[|ds| - 1].notional
  }

  function NotionalIn(ds: seq<BuyDecision>, ticker: string): real {
    if ds == [] then 0.0
    else NotionalIn(ds[..|ds| - 1], ticker) + if ds[|ds| - 1].ticker == ticker then ds[|ds| - 1].notional else 0.0
  }

  /** Half a unit for every row that was bought. */
  function Halves(bought: seq<Row>): real {
    if bought == [] then 0.0 else Halves(bought[..|bought| - 1]) + HalfUnit(bought[|bought| - 1].cand.price)
  }

  /** `d` is an order for row `r`. */
  ghost predicate Serves(d: BuyDecision, r: Row) {
    && d.entity == r.cand.entity && d.ticker == r.cand.ticker && d.purpose == r.purpose && d.target == r.target
    && d.shares > MIN_ORDER_SHARES && d.notional == Cost(d.shares, r.cand.price) && d.score == r.score
  }

  /** Decision by decision the rows served, picked in order from the selected ones. */
  ghost predicate ServesInOrder(ds: seq<BuyDecision>, picks: seq<nat>, selected: seq<Row>) {
    && |picks| == |ds|
    && (forall i :: 0 <= i < |picks| ==> picks[i] < |selected| && Serves(ds[i], selected[picks[i]]))
    && (forall i, j :: 0 <= i < j < |picks| ==> picks[i] < picks[j])
  }

  function Picked(picks: seq<nat>, selected: seq<Row>): seq<Row>
    requires forall i :: 0 <= i < |picks| ==> picks[i] < |selected|
  {
    seq(|picks|, i requires 0 <= i < |picks| => selected[picks[i]])
  }

  /** No ticker ends above what it had, or else above its cap by more than half a unit of a row bought in it. */
  ghost predicate WithinCap(prior: map<string, real>, ds: seq<BuyDecision>, bought: seq<Row>, params: Params) {
    forall t :: NotionalIn(ds, t) == 0.0 ||
      exists r :: r in bought && r.cand.ticker == t && Lookup(prior, t) + NotionalIn(ds, t) <= CapNotional(params) + HalfUnit(r.cand.price)
  }

  lemma AppendDecision(ds: seq<BuyDecision>, d: BuyDecision)
    ensures TotalNotional(ds + [d]) == TotalNotional(ds) + d.notional
    ensures CountEntryDecisions(ds + [d]) == CountEntryDecisions(ds) + if d.purpose != "add_buy" then 1 else 0
    ensures forall t :: NotionalIn(ds + [d], t) == NotionalIn(ds, t) + if d.ticker == t then d.notional else 0.0
  {
    assert (ds + [d])[..|ds|] == ds;
  }

  lemma AppendHalf(bought: seq<Row>, r: Row)
    ensures Halves(bought + [r]) == Halves(bought) + HalfUnit(r.cand.price)
  {
    assert (bought + [r])[..|bought|] == bought;
  }

  lemma CapAfter(prior: map<string, real>, ds: seq<BuyDecision>, bought: seq<Row>, params: Params, d: BuyDecision, r: Row)
    requires WithinCap(prior, ds, bought, params)
    requires d.ticker == r.cand.ticker && Lookup(prior, d.ticker) + NotionalIn(ds, d.ticker) + d.notional <= CapNotional(params) + HalfUnit(r.cand.price)
    ensures WithinCap(prior, ds + [d], bought + [r], params)
  {
    AppendDecision(ds, d);
    forall t ensures NotionalIn(ds + [d], t) == 0.0 ||
      exists q :: q in bought + [r] && q.cand.ticker == t && Lookup(prior, t) + NotionalIn(ds + [d], t) <= CapNotional(params) + HalfUnit(q.cand.price)
    {
      if t == d.ticker {
        assert r in bought + [r];
      } else if NotionalIn(ds, t) != 0.0 {
        var q :| q in bought && q.cand.ticker == t && Lookup(prior, t) + NotionalIn(ds, t) <= CapNotional(params) + HalfUnit(q.cand.price);
        assert q in bought + [r];
      }
    }
  }

  /** The part of the capital the first `k` weights stand for. */
  function Budget(weights: seq<real>, k: nat, params: Params): real
    requires k <= |weights|
  {
    MaxR(Investable(params), 0.0) * SumSeq(weights[..k])
  }

  lemma BudgetGrows(weights: seq<real>, k: nat, params: Params)
    requires k < |weights| && weights[k] >= 0.0
    ensures Budget(weights, k + 1, params) >= Budget(weights, k, params)
    ensures Budget(weights, k + 1, params) >= Budget(weights, k, params) + Desired(params, weights[k])
  {
    assert weights[..k + 1][..k] == weights[..k];
    var capital, sum, w := MaxR(Investable(params), 0.0), SumSeq(weights[..k]), weights[k];
    assert capital * (sum + w) == capital * sum + capital * w;
    assert Investable(params) * w <= capital * w;
  }

  /** The order for a row, given the orders before it: none in a ticker whose exposure is unknown, else what `SizeRow` allows on
      top of what the ticker holds and has been ordered by then. */
  function SizeAfter(earlier: seq<BuyDecision>, row: Row, weight: real, prior: map<string, real>, unknown: set<string>, params: Params): Option<int>
    requires row.cand.price > 0.0
  {
    if row.cand.ticker in unknown then None
    else SizeRow(row.cand.price, weight, Lookup(prior, row.cand.ticker) + NotionalIn(earlier, row.cand.ticker), params)
  }

  /** The first `j` picks are those below `k`. */
  predicate PicksSplit(picks: seq<nat>, k: nat, j: nat) {
    && j <= |picks| && (forall i :: 0 <= i < j ==> picks[i] < k) && (forall i :: j <= i < |picks| ==> picks[i] >= k)
  }

  /** Of the first `k` selected rows exactly those get an order for which something is allowed after the orders before, and they
      get exactly that. */
  ghost predicate RightlySized(ds: seq<BuyDecision>, picks: seq<nat>, selected: seq<Row>, k: nat, weights: seq<real>, prior: map<string, real>,
                               unknown: set<string>, params: Params)
    requires k <= |selected| == |weights| && |picks| == |ds| && forall i :: 0 <= i < |selected| ==> selected[i].cand.price > 0.0
  {
    forall i: nat, j: nat :: i < k && PicksSplit(picks, i, j) ==>
      var size := SizeAfter(ds[..j], selected[i], weights[i], prior, unknown, params);
      && (size.Some? <==> j < |picks| && picks[j] == i)
      && (size.Some? ==> ds[j].shares == size.value)
  }

  lemma OneMoreSized(ds: seq<BuyDecision>, picks: seq<nat>, selected: seq<Row>, k: nat, weights: seq<real>, prior: map<string, real>,
                     unknown: set<string>, params: Params, d: BuyDecision)
    requires k < |selected| == |weights| && |picks| == |ds| && forall i :: 0 <= i < |selected| ==> selected[i].cand.price > 0.0
    requires RightlySized(ds, picks, selected, k, weights, prior, unknown, params) && forall i :: 0 <= i < |picks| ==> picks[i] < k
    ensures var size := SizeAfter(ds, selected[k], weights[k], prior, unknown, params);
      && (size.None? ==> RightlySized(ds, picks, selected, k + 1, weights, prior, unknown, params))
      && (size == Some(d.shares) ==> RightlySized(ds + [d], picks + [k], selected, k + 1, weights, prior, unknown, params))
  {
    hide SizeAfter;
    assert ds[..|ds|] == ds;
    var size := SizeAfter(ds, selected[k], weights[k], prior, unknown, params);
    if size.None? {
      forall i: nat, j: nat | i < k + 1 && PicksSplit(picks, i, j) ensures i == k ==> j == |picks| {
        assert j < |picks| ==> picks[j] < k;
      }
    }
    if size == Some(d.shares) {
      var more, picked := ds + [d], picks + [k];
      forall i: nat, j: nat | i < k + 1 && PicksSplit(picked, i, j)
        ensures var size := SizeAfter(more[..j], selected[i], weights[i], prior, unknown, params);
          (size.Some? <==> j < |picked| && picked[j] == i) && (size.Some? ==> more[j].shares == size.value)
      {
        SplitBefore(picks, k, i, j);
        assert more[..j] == ds[..j];
      }
    }
  }

  lemma SplitBefore(picks: seq<nat>, k: nat, i: nat, j: nat)
    requires i <= k && PicksSplit(picks + [k], i, j) && forall n :: 0 <= n < |picks| ==> picks[n] < k
    ensures j <= |picks| && (i == k ==> j == |picks|) && PicksSplit(picks, i, j)
  {
    var picked := picks + [k];
    assert picked[|picks|] == k;
    assert j < |picks| ==> picked[j] == picks[j];
    assert forall n :: 0 <= n < |picks| ==> picks[n] == picked[n];
  }

  lemma NothingSizedYet(selected: seq<Row>, weights: seq<real>, prior: map<string, real>, unknown: set<string>, params: Params)
    requires |selected| == |weights| && forall i :: 0 <= i < |selected| ==> selected[i].cand.price > 0.0
    ensures RightlySized([], [], selected, 0, weights, prior, unknown, params)
  {
  }

  lemma SizeAtHand(ds: seq<BuyDecision>, row: Row, weight: real, prior: map<string, real>, exposure: map<string, real>, unknown: set<string>, params: Params)
    requires row.cand.price > 0.0 && Lookup(exposure, row.cand.ticker) == Lookup(prior, row.cand.ticker) + NotionalIn(ds, row.cand.ticker)
    ensures SizeAfter(ds, row, weight, prior, unknown, params) ==
              if row.cand.ticker in unknown then None else SizeRow(row.cand.price, weight, Lookup(exposure, row.cand.ticker), params)
  {
    hide SizeRow, NotionalIn, Lookup;
  }

  /** What sizing the first `k` selected rows has established. */
  ghost predicate SizedSoFar(selected: seq<Row>, k: nat, weights: seq<real>, prior: map<string, real>, exposure: map<string, real>,
                             unknown: set<string>, params: Params, ds: seq<BuyDecision>, picks: seq<nat>)
    requires k <= |selected| && |weights| == |selected|
  {
    && ServesInOrder(ds, picks, selected)
    && (forall i :: 0 <= i < |picks| ==> picks[i] < k)
    && CountEntryDecisions(ds) <= CountEntries(selected[..k])
    && (forall d :: d in ds ==> d.ticker !in unknown)
    && (forall t :: Lookup(exposure, t) == Lookup(prior, t) + NotionalIn(ds, t))
    && WithinCap(prior, ds, Picked(picks, selected), params)
    && TotalNotional(ds) <= Budget(weights, k, params) + Halves(Picked(picks, selected))
  }

  lemma SkipRow(selected: seq<Row>, k: nat, weights: seq<real>, prior: map<string, real>, exposure: map<string, real>,
                unknown: set<string>, params: Params, ds: seq<BuyDecision>, picks: seq<nat>)
    requires k < |selected| && |weights| == |selected| && weights[k] >= 0.0
    requires SizedSoFar(selected, k, weights, prior, exposure, unknown, params, ds, picks)
    ensures SizedSoFar(selected, k + 1, weights, prior, exposure, unknown, params, ds, picks)
  {
    assert selected[..k + 1][..k] == selected[..k];
    BudgetGrows(weights, k, params);
  }

  lemma ExposureAfter(prior: map<string, real>, exposure: map<string, real>, ds: seq<BuyDecision>, d: BuyDecision)
    requires forall t :: Lookup(exposure, t) == Lookup(prior, t) + NotionalIn(ds, t)
    ensures forall t :: Lookup(exposure[d.ticker := Lookup(exposure, d.ticker) + d.notional], t) == Lookup(prior, t) + NotionalIn(ds + [d], t)
  {
    AppendDecision(ds, d);
    forall t ensures Lookup(exposure[d.ticker := Lookup(exposure, d.ticker) + d.notional], t) == Lookup(prior, t) + NotionalIn(ds + [d], t) {
      assert Lookup(exposure, t) == Lookup(prior, t) + NotionalIn(ds, t);
    }
  }

  lemma BuyRow(selected: seq<Row>, k: nat, weights: seq<real>, prior: map<string, real>, exposure: map<string, real>,
               unknown: set<string>, params: Params, ds: seq<BuyDecision>, picks: seq<nat>, d: BuyDecision)
    requires k < |selected| && |weights| == |selected| && weights[k] >= 0.0
    requires SizedSoFar(selected, k, weights, prior, exposure, unknown, params, ds, picks)
    requires d.ticker !in unknown && Serves(d, selected[k])
    requires d.notional <= Desired(params, weights[k]) + HalfUnit(selected[k].cand.price)
    requires Lookup(exposure, d.ticker) + d.notional <= CapNotional(params) + HalfUnit(selected[k].cand.price)
    ensures SizedSoFar(selected, k + 1, weights, prior, exposure[d.ticker := Lookup(exposure, d.ticker) + d.notional], unknown, params, ds + [d], picks + [k])
  {
    hide Budget, Desired, Investable, CapNotional, HalfUnit, SumSeq, WithinCap, NotionalIn, TotalNotional, Halves, Lookup, ServesInOrder, Picked, CountEntryDecisions;
    var row := selected[k];
    assert selected[..k + 1][..k] == selected[..k];
    BudgetGrows(weights, k, params);
    AppendDecision(ds, d);
    PickedAfter(ds, picks, selected, k, d);
    AppendHalf(Picked(picks, selected), row);
    ExposureAfter(prior, exposure, ds, d);
    CapAfter(prior, ds, Picked(picks, selected), params, d, row);
  }

  lemma PickedAfter(ds: seq<BuyDecision>, picks: seq<nat>, selected: seq<Row>, k: nat, d: BuyDecision)
    requires k < |selected| && ServesInOrder(ds, picks, selected) && Serves(d, selected[k])
    requires forall i :: 0 <= i < |picks| ==> picks[i] < k
    ensures ServesInOrder(ds + [d], picks + [k], selected)
    ensures Picked(picks + [k], selected) == Picked(picks, selected) + [selected[k]]
  {
  }

  /** The loop over the selected rows with their weights. */
  method SizeEach(selected: seq<Row>, weights: seq<real>, prior: map<string, real>, unknown: set<string>, params: Params)
    returns (ds: seq<BuyDecision>, ghost picks: seq<nat>, exposure: map<string, real>)
    requires |weights| == |selected| && forall k :: 0 <= k < |selected| ==> weights[k] >= 0.0 && selected[k].cand.price > 0.0
    ensures SizedSoFar(selected, |selected|, weights, prior, exposure, unknown, params, ds, picks)
    ensures |picks| == |ds| && RightlySized(ds, picks, selected, |selected|, weights, prior, unknown, params)
  {
    hide SizedSoFar, Desired, CapNotional, HalfUnit, SizeRow, Cost, Lookup, TotalNotional, Halves, Picked, RightlySized, SizeAfter, NotionalIn;
    NothingSized(selected, weights, prior, unknown, params);
    NothingSizedYet(selected, weights, prior, unknown, params);
    ds, picks, exposure := [], [], prior;
    for k := 0 to |selected|
      invariant SizedSoFar(selected, k, weights, prior, exposure, unknown, params, ds, picks)
      invariant |picks| == |ds| && RightlySized(ds, picks, selected, k, weights, prior, unknown, params)
    {
      var row := selected[k];
      SoFar(selected, k, weights, prior, exposure, unknown, params, ds, picks, row.cand.ticker);
      SizeAtHand(ds, row, weights[k], prior, exposure, unknown, params);
      ghost var none := BuyDecision(row.cand.entity, row.cand.ticker, 0, 0.0, row.score, row.purpose, row.target);
      if row.cand.ticker in unknown {
        SkipRow(selected, k, weights, prior, exposure, unknown, params, ds, picks);
        OneMoreSized(ds, picks, selected, k, weights, prior, unknown, params, none);
        continue;
      }
      var used := Lookup(exposure, row.cand.ticker);
      var size := SizeRow(row.cand.price, weights[k], used, params);
      if size.None? {
        SkipRow(selected, k, weights, prior, exposure, unknown, params, ds, picks);
        OneMoreSized(ds, picks, selected, k, weights, prior, unknown, params, none);
        continue;
      }
      SizeRowBounds(row.cand.price, weights[k], used, params);
      var cost := Cost(size.value, row.cand.price);
      var d := BuyDecision(row.cand.entity, row.cand.ticker, size.value, cost, row.score, row.purpose, row.target);
      BuyRow(selected, k, weights, prior, exposure, unknown, params, ds, picks, d);
      OneMoreSized(ds, picks, selected, k, weights, prior, unknown, params, d);
      ds, picks := ds + [d], picks + [k];
      exposure := exposure[row.cand.ticker := used + cost];
    }
  }

  lemma SoFar(selected: seq<Row>, k: nat, weights: seq<real>, prior: map<string, real>, exposure: map<string, real>, unknown: set<string>,
              params: Params, ds: seq<BuyDecision>, picks: seq<nat>, t: string)
    requires k <= |selected| == |weights| && SizedSoFar(selected, k, weights, prior, exposure, unknown, params, ds, picks)
    ensures Lookup(exposure, t) == Lookup(prior, t) + NotionalIn(ds, t)
    ensures |picks| == |ds| && forall i :: 0 <= i < |picks| ==> picks[i] < k
  {
    hide WithinCap, TotalNotional, Halves, CountEntries, CountEntryDecisions, Budget, Lookup, NotionalIn;
  }

  function ScoresOf(selected: seq<Row>): seq<real> { seq(|selected|, i requires 0 <= i < |selected| => selected[i].score) }

  /** The selected rows get equal shares where that is asked for or none has a positive score; else shares in proportion to their
      positive scores. */
  lemma WeightsByScore(selected: seq<Row>, sizing: Sizing)
    ensures var weights, n := Weights(ScoresOf(selected), sizing), |selected|;
      && |weights| == n
      && (sizing == Equal || (forall i :: 0 <= i < n ==> selected[i].score <= 0.0) ==>
            forall i :: 0 <= i < n ==> weights[i] * n as real == 1.0)
      && (sizing != Equal && (exists i :: 0 <= i < n && selected[i].score > 0.0) ==>
            forall i, j :: 0 <= i < n && 0 <= j < n ==>
              weights[i] * MaxR(selected[j].score, 0.0) == weights[j] * MaxR(selected[i].score, 0.0))
  {
    hide Weights;
    ShareOrProportion(ScoresOf(selected), sizing);
    PositiveTotal(ScoresOf(selected));
  }

  lemma ShareOrProportion(scores: seq<real>, sizing: Sizing)
    ensures var weights, n := Weights(scores, sizing), |scores|;
      && |weights| == n
      && (sizing == Equal || SumSeq(Positive(scores)) <= 0.0 ==> forall i :: 0 <= i < n ==> weights[i] * n as real == 1.0)
      && (sizing != Equal && SumSeq(Positive(scores)) > 0.0 ==>
            forall i, j :: 0 <= i < n && 0 <= j < n ==> weights[i] * MaxR(scores[j], 0.0) == weights[j] * MaxR(scores[i], 0.0))
  {
    hide SumSeq, Positive, Repeat, Scaled;
    if scores == [] {
    } else if sizing == Equal || SumSeq(Positive(scores)) <= 0.0 {
      EqualParts(|scores|);
    } else {
      PositiveTotal(scores);
      PartsInProportion(scores, SumSeq(Positive(scores)));
    }
  }

  /** Every selected row gets the order its weight, its cap and the orders before it allow, and no other. */
  ghost predicate SizedByScore(ds: seq<BuyDecision>, picks: seq<nat>, selected: seq<Row>, prior: map<string, real>, unknown: set<string>, params: Params) {
    var weights := Weights(ScoresOf(selected), params.sizing);
    && |picks| == |ds| && |weights| == |selected| && (forall r :: r in selected ==> r.cand.price > 0.0)
    && (forall i :: 0 <= i < |selected| ==> selected[i].cand.price > 0.0)
    && RightlySized(ds, picks, selected, |selected|, weights, prior, unknown, params)
  }

  lemma NothingToSize(selected: seq<Row>, prior: map<string, real>, unknown: set<string>, params: Params)
    requires selected == []
    ensures SizedByScore([], [], selected, prior, unknown, params)
  {
    assert ScoresOf(selected) == [];
    assert Weights(ScoresOf(selected), params.sizing) == [];
  }

  /** Size the selected rows one after the other, each against what the earlier ones left of the cap. */
  method SizeRows(selected: seq<Row>, prior: map<string, real>, unknown: set<string>, params: Params)
    returns (ds: seq<BuyDecision>, ghost picks: seq<nat>)
    requires forall r :: r in selected ==> r.cand.price > 0.0
    ensures ServesInOrder(ds, picks, selected)
    ensures CountEntryDecisions(ds) <= CountEntries(selected)
    ensures forall d :: d in ds ==> d.ticker !in unknown
    ensures WithinCap(prior, ds, Picked(picks, selected), params)
    ensures TotalNotional(ds) <= MaxR(Investable(params), 0.0) + Halves(Picked(picks, selected))
    ensures SizedByScore(ds, picks, selected, prior, unknown, params)
  {
    hide SizedSoFar, Budget, Investable, Weights, WithinCap, TotalNotional, SumSeq, ServesInOrder, Picked, Halves, CountEntries, CountEntryDecisions;
    hide RightlySized;
    ds, picks := [], [];
    var scores := ScoresOf(selected);
    var weights := Weights(scores, params.sizing);
    if selected == [] {
      NothingSized(selected, [], prior, unknown, params);
      NothingSizedYet(selected, [], prior, unknown, params);
      AllSized(selected, [], prior, prior, unknown, params, [], []);
      NothingToSize(selected, prior, unknown, params);
      return;
    }
    WeightsSplitTheWhole(scores, params.sizing);
    BudgetEnds(weights, params);
    var exposure;
    forall k | 0 <= k < |selected| ensures selected[k].cand.price > 0.0 { assert selected[k] in selected; }
    ds, picks, exposure := SizeEach(selected, weights, prior, unknown, params);
    AllSized(selected, weights, prior, exposure, unknown, params, ds, picks);
  }

  lemma AllSized(selected: seq<Row>, weights: seq<real>, prior: map<string, real>, exposure: map<string, real>, unknown: set<string>,
                 params: Params, ds: seq<BuyDecision>, picks: seq<nat>)
    requires |weights| == |selected| && SizedSoFar(selected, |selected|, weights, prior, exposure, unknown, params, ds, picks)
    ensures ServesInOrder(ds, picks, selected) && CountEntryDecisions(ds) <= CountEntries(selected)
    ensures forall d :: d in ds ==> d.ticker !in unknown
    ensures WithinCap(prior, ds, Picked(picks, selected), params)
    ensures TotalNotional(ds) <= Budget(weights, |selected|, params) + Halves(Picked(picks, selected))
  {
    hide ServesInOrder, WithinCap, TotalNotional, Halves, CountEntries, CountEntryDecisions, NotionalIn, Budget;
    assert selected[..|selected|] == selected;
  }

  lemma NothingSized(selected: seq<Row>, weights: seq<real>, prior: map<string, real>, unknown: set<string>, params: Params)
    requires |weights| == |selected|
    ensures SizedSoFar(selected, 0, weights, prior, prior, unknown, params, [], [])
    ensures TotalNotional([]) == 0.0 == Halves(Picked([], selected))
  {
  }

  lemma BudgetEnds(weights: seq<real>, params: Params)
    requires SumSeq(weights) == 1.0
    ensures Budget(weights, 0, params) == 0.0 && Budget(weights, |weights|, params) == MaxR(Investable(params), 0.0)
  {
    assert weights[..|weights|] == weights;
  }

  // ---- decide_buys ---------------------------------------------------------------

  /** Free slots: distinct tickers count in ticker mode, positions in entity mode. */
  function FreeSlots(v: OpenView, params: Params): nat {
    Max(MaxSlots(params) - (if params.allowSameTicker then v.count else |v.tickers|), 0)
  }

  /** No two entries among the decisions compete for one slot. */
  ghost predicate DistinctDecisions(ds: seq<BuyDecision>, params: Params) {
    forall i, j :: 0 <= i < j < |ds| && ds[i].purpose != "add_buy" && ds[j].purpose != "add_buy" ==>
      if params.allowSameTicker then ds[i].entity != ds[j].entity else ds[i].ticker != ds[j].ticker
  }

  /** What the decisions promise about the open positions they were made against. */
  ghost predicate FitOpenPositions(ds: seq<BuyDecision>, positions: map<Id, Position>, params: Params) {
    && (forall i :: 0 <= i < |ds| ==>
          ds[i].shares > MIN_ORDER_SHARES && AtHome(ds[i].entity, ds[i].ticker, ds[i].purpose, ds[i].target, positions, params))
    && DistinctDecisions(ds, params)
    && CountEntryDecisions(ds) <= Max(MaxSlots(params) - (if params.allowSameTicker then |OpenIds(positions)| else |ActiveTickers(positions)|), 0)
  }

  /** A row is at home among the open positions: an add-buy aims at the entity's own open position, an entry
      at an entity, and in ticker mode a ticker, with none. */
  ghost predicate AtHome(entity: string, ticker: string, purpose: string, target: Option<Id>, positions: map<Id, Position>, params: Params) {
    && ticker != ""
    && (purpose == "add_buy" ==> target.Some? && target.value in positions && Active(positions[target.value]) && positions[target.value].entity == entity)
    && (purpose != "add_buy" ==>
          && purpose == "entry" && target.None?
          && (forall id :: id in positions && Active(positions[id]) ==> positions[id].entity != entity)
          && (!params.allowSameTicker ==> ticker !in ActiveTickers(positions)))
  }

  lemma RowFits(r: Row, v: OpenView, positions: map<Id, Position>, params: Params)
    requires Views(v, positions) && EligibleRow(r.cand, v, positions, params) == Some(r)
    ensures r.cand.price > 0.0 && AtHome(r.cand.entity, r.cand.ticker, r.purpose, r.target, positions, params)
  {
    assert FindsEntities(v.byEntity, positions);
  }

  lemma DecisionsFit(ds: seq<BuyDecision>, picks: seq<nat>, selected: seq<Row>, v: OpenView, positions: map<Id, Position>, params: Params)
    requires Views(v, positions)
    requires forall r :: r in selected ==> EligibleRow(r.cand, v, positions, params) == Some(r)
    requires DistinctEntries(selected, params) && CountEntries(selected) <= FreeSlots(v, params)
    requires ServesInOrder(ds, picks, selected) && CountEntryDecisions(ds) <= CountEntries(selected)
    ensures FitOpenPositions(ds, positions, params)
  {
    forall i | 0 <= i < |ds|
      ensures ds[i].shares > MIN_ORDER_SHARES && AtHome(ds[i].entity, ds[i].ticker, ds[i].purpose, ds[i].target, positions, params)
    {
      assert Serves(ds[i], selected[picks[i]]);
      RowFits(selected[picks[i]], v, positions, params);
    }
    EntriesStayDistinct(ds, picks, selected, params);
    FreeSlotsSeen(v, positions, params);
  }

  lemma EntriesStayDistinct(ds: seq<BuyDecision>, picks: seq<nat>, selected: seq<Row>, params: Params)
    requires DistinctEntries(selected, params) && ServesInOrder(ds, picks, selected)
    ensures DistinctDecisions(ds, params)
  {
  }

  lemma FreeSlotsSeen(v: OpenView, positions: map<Id, Position>, params: Params)
    requires Views(v, positions)
    ensures FreeSlots(v, params) == Max(MaxSlots(params) - (if params.allowSameTicker then |OpenIds(positions)| else |ActiveTickers(positions)|), 0)
  {
  }

  /** Exactly the eligible candidates compete, from the greatest key down; whoever is left out had to yield; everyone selected gets
      exactly the order that weight, cap and the orders before allow; and so the capital and every ticker's cap are respected up to
      half a unit per order. */
  ghost predicate Decided(ds: seq<BuyDecision>, cands: seq<BuyCandidate>, positions: map<Id, Position>, params: Params,
                          v: OpenView, rows: seq<Row>, places: seq<nat>, selected: seq<Row>, picks: seq<nat>)
  {
    && Views(v, positions) && ServesInOrder(ds, picks, selected)
    && rows == StableSort(EligibleOf(cands, v, positions, params), KeyAtLeast())
    && (forall c :: c in cands && EligibleRow(c, v, positions, params).Some? ==> EligibleRow(c, v, positions, params).value in rows)
    && (forall r :: r in rows ==> r.cand in cands && EligibleRow(r.cand, v, positions, params) == Some(r))
    && StandAt(rows, |rows|, places, selected) && (forall r :: r in selected ==> r in rows)
    && LeftOutRightly(rows, |rows|, places, selected, FreeSlots(v, params), params)
    && DistinctEntries(selected, params) && CountEntries(selected) <= FreeSlots(v, params)
    && SizedByScore(ds, picks, selected, v.exposure, v.unknown, params)
    && TotalNotional(ds) <= MaxR(Investable(params), 0.0) + Halves(Picked(picks, selected))
    && (forall t :: NotionalIn(ds, t) == 0.0 ||
          exists r :: r in Picked(picks, selected) && r.cand.ticker == t &&
            ExposureOf(positions, t) + NotionalIn(ds, t) <= CapNotional(params) + HalfUnit(r.cand.price))
  }

  /** Select and size the buys of a day. `rows` are the candidates that pass the filters by falling key, `selected` those of them
      that win a slot, at `places`, and `picks` the selected ones that get an order. */
  method DecideBuys(cands: seq<BuyCandidate>, positions: map<Id, Position>, ids: seq<Id>, params: Params)
    returns (ds: seq<BuyDecision>, ghost v: OpenView, ghost rows: seq<Row>, ghost places: seq<nat>, ghost selected: seq<Row>, ghost picks: seq<nat>)
    requires forall id :: id in ids <==> id in OpenIds(positions)
    requires forall i, j :: 0 <= i < j < |ids| ==> ids[i] != ids[j]
    requires |ids| == |OpenIds(positions)|
    ensures FitOpenPositions(ds, positions, params)
    ensures Decided(ds, cands, positions, params, v, rows, places, selected, picks)
  {
    hide SizedByScore, StandAt, LeftOutRightly, EligibleOf, DistinctEntries, TotalNotional, Halves, Investable;
    var view := ViewOpen(positions, ids);
    v := view;
    var eligible := EligibleRows(cands, view, positions, params);
    var sorted := StableSort(eligible, KeyAtLeast());
    KeyOrderIsTotal();
    SortSorts(eligible, KeyAtLeast());
    SortKeepsElements(eligible, KeyAtLeast());
    rows := sorted;
    var chosen;
    chosen, places := SelectRows(sorted, FreeSlots(view, params), params);
    selected := chosen;
    SelectedStand(rows, places, selected);
    ds, picks := SizeRows(chosen, view.exposure, view.unknown, params);
    DecisionsFit(ds, picks, selected, v, positions, params);
  }

  // ---- nothing is left unspent ---------------------------------------------------

  /** What the first k rows may cost in a ticker: what their weights ask for, and half a unit each. */
  function DemandIn(selected: seq<Row>, weights: seq<real>, k: nat, t: string, params: Params): real
    requires k <= |selected| == |weights|
  {
    if k == 0 then 0.0
    else
      DemandIn(selected, weights, k - 1, t, params)
      + if selected[k - 1].cand.ticker == t then Asked(weights[k - 1], params) + HalfUnit(selected[k - 1].cand.price) else 0.0
  }

  function AskedInAll(weights: seq<real>, k: nat, params: Params): real
    requires k <= |weights|
  {
    if k == 0 then 0.0 else AskedInAll(weights, k - 1, params) + Asked(weights[k - 1], params)
  }

  /** Every selected row is known, asks for more than the minimum and more than dust, and its ticker has room for that after the
      rows before it. */
  ghost predicate RoomForAll(selected: seq<Row>, weights: seq<real>, prior: map<string, real>, unknown: set<string>, params: Params)
    requires |weights| == |selected|
  {
    forall k :: 0 <= k < |selected| ==>
      var t, asked := selected[k].cand.ticker, Asked(weights[k], params);
      && t !in unknown && asked > 0.0 && asked > params.minNotional && 1_000_000.0 * asked >= 1.5 * selected[k].cand.price
      && DemandIn(selected, weights, k, t, params) + asked <= Room(Lookup(prior, t), params)
  }

  /** The first k rows each got an order, which cost what was asked for up to half a unit each. */
  ghost predicate ServedInFull(ds: seq<BuyDecision>, picks: seq<nat>, selected: seq<Row>, weights: seq<real>, k: nat, params: Params)
    requires k <= |selected| == |weights| && |picks| == |ds|
  {
    && k <= |ds| && (forall i :: 0 <= i < k ==> picks[i] == i)
    && (forall t :: NotionalIn(ds[..k], t) <= DemandIn(selected, weights, k, t, params))
    && TotalNotional(ds[..k]) >= AskedInAll(weights, k, params) - Halves(selected[..k])
  }

  lemma ServeOneMore(ds: seq<BuyDecision>, picks: seq<nat>, selected: seq<Row>, weights: seq<real>, k: nat, prior: map<string, real>,
                     unknown: set<string>, params: Params)
    requires k < |selected| == |weights| && ServesInOrder(ds, picks, selected) && forall i :: 0 <= i < |selected| ==> selected[i].cand.price > 0.0
    requires ServedInFull(ds, picks, selected, weights, k, params) && RoomForAll(selected, weights, prior, unknown, params)
    requires RightlySized(ds, picks, selected, |selected|, weights, prior, unknown, params)
    ensures ServedInFull(ds, picks, selected, weights, k + 1, params)
  {
    hide DemandIn, SizeRow, NotionalIn, TotalNotional, Halves, Asked, Room, HalfUnit, Lookup, AskedInAll, RightlySized, SizeAfter;
    var row := selected[k];
    var t, used := row.cand.ticker, Lookup(prior, row.cand.ticker) + NotionalIn(ds[..k], row.cand.ticker);
    RowHasRoom(selected, weights, k, prior, unknown, NotionalIn(ds[..k], t), params);
    assert PicksSplit(picks, k, k) by { AllBefore(picks, k); }
    SizedAt(ds, picks, selected, k, weights, prior, unknown, params);
    SizeRowExactly(row.cand.price, weights[k], used, params);
    RoomAllows(weights[k], used, params);
    SizeRowFromBelow(row.cand.price, weights[k], used, params);
    assert Serves(ds[k], selected[picks[k]]);
    assert ds[..k + 1] == ds[..k] + [ds[k]] && selected[..k + 1] == selected[..k] + [row];
    AppendDecision(ds[..k], ds[k]);
    AppendHalf(selected[..k], row);
    var before, more := ds[..k], ds[..k + 1];
    forall u ensures NotionalIn(more, u) <= DemandIn(selected, weights, k + 1, u, params) {
      DemandStep(selected, weights, k, u, params);
      assert NotionalIn(before, u) <= DemandIn(selected, weights, k, u, params);
    }
    AskedStep(weights, k, params);
  }

  lemma DemandStep(selected: seq<Row>, weights: seq<real>, k: nat, t: string, params: Params)
    requires k < |selected| == |weights|
    ensures DemandIn(selected, weights, k + 1, t, params) == DemandIn(selected, weights, k, t, params)
              + if selected[k].cand.ticker == t then Asked(weights[k], params) + HalfUnit(selected[k].cand.price) else 0.0
  {
    hide Asked;
  }

  lemma AskedStep(weights: seq<real>, k: nat, params: Params)
    requires k < |weights|
    ensures AskedInAll(weights, k + 1, params) == AskedInAll(weights, k, params) + Asked(weights[k], params)
  {
    hide Asked;
  }

  lemma AllBefore(picks: seq<nat>, k: nat)
    requires k <= |picks| && forall i :: 0 <= i < k ==> picks[i] == i
    requires forall i, j :: 0 <= i < j < |picks| ==> picks[i] < picks[j]
    ensures PicksSplit(picks, k, k)
  {
    forall i | k <= i < |picks| ensures picks[i] >= k {
      if k > 0 { assert picks[k - 1] < picks[i]; }
    }
  }

  lemma SizedAt(ds: seq<BuyDecision>, picks: seq<nat>, selected: seq<Row>, k: nat, weights: seq<real>, prior: map<string, real>,
                unknown: set<string>, params: Params)
    requires k < |selected| == |weights| && |picks| == |ds| && forall i :: 0 <= i < |selected| ==> selected[i].cand.price > 0.0
    requires RightlySized(ds, picks, selected, |selected|, weights, prior, unknown, params) && PicksSplit(picks, k, k)
    requires selected[k].cand.ticker !in unknown
    ensures var t := selected[k].cand.ticker;
      var size := SizeRow(selected[k].cand.price, weights[k], Lookup(prior, t) + NotionalIn(ds[..k], t), params);
      (size.Some? <==> k < |picks| && picks[k] == k) && (size.Some? ==> ds[k].shares == size.value)
  {
    hide SizeRow, NotionalIn, Lookup;
  }

  lemma RoomAllows(weight: real, used: real, params: Params)
    requires 0.0 < Asked(weight, params) <= Room(used, params)
    ensures !CapCuts(weight, used, params) && Allowed(weight, used, params) == Asked(weight, params)
  {
    hide Asked, Room;
  }

  lemma RowHasRoom(selected: seq<Row>, weights: seq<real>, k: nat, prior: map<string, real>, unknown: set<string>, spent: real, params: Params)
    requires k < |selected| == |weights| && RoomForAll(selected, weights, prior, unknown, params)
    requires forall i :: 0 <= i < |selected| ==> selected[i].cand.price > 0.0
    requires spent <= DemandIn(selected, weights, k, selected[k].cand.ticker, params)
    ensures var t := selected[k].cand.ticker;
      && t !in unknown && 0.0 < Asked(weights[k], params) <= Room(Lookup(prior, t) + spent, params)
      && Asked(weights[k], params) > params.minNotional && 1_000_000.0 * Asked(weights[k], params) >= 1.5 * selected[k].cand.price
  {
    hide Asked, DemandIn;
  }

  lemma {:induction false} AskedIsShare(weights: seq<real>, k: nat, params: Params)
    requires k <= |weights|
    ensures AskedInAll(weights, k, params) == params.capital * Clip(params.cashBufferRatio, 1.0) * SumSeq(weights[..k])
  {
    var money := params.capital * Clip(params.cashBufferRatio, 1.0);
    if k > 0 {
      AskedIsShare(weights, k - 1, params);
      assert weights[..k][..k - 1] == weights[..k - 1];
      assert money * (SumSeq(weights[..k - 1]) + weights[k - 1]) == money * SumSeq(weights[..k - 1]) + money * weights[k - 1];
    }
  }

  /** When the selected rows are known, above the minimum and dust, and their tickers have room, every one of them gets an order,
      and the money to invest is spent, but for half a unit per order. */
  lemma RoomIsSpent(ds: seq<BuyDecision>, cands: seq<BuyCandidate>, positions: map<Id, Position>, params: Params,
                    v: OpenView, rows: seq<Row>, places: seq<nat>, selected: seq<Row>, picks: seq<nat>)
    requires Decided(ds, cands, positions, params, v, rows, places, selected, picks) && selected != []
    requires var weights := Weights(ScoresOf(selected), params.sizing); |weights| == |selected| && RoomForAll(selected, weights, v.exposure, v.unknown, params)
    ensures |ds| == |selected|
    ensures TotalNotional(ds) >= params.capital * Clip(params.cashBufferRatio, 1.0) - Halves(selected)
  {
    hide RoomForAll, SizedByScore, Clip, Weights, Views, EligibleRow, StandAt, LeftOutRightly, DistinctEntries, TotalNotional, Halves, Picked,
         NotionalIn, ExposureOf, SumSeq, ServesInOrder, KeyAtLeast, EligibleOf;
    RowsAreServed(ds, picks, selected, v.exposure, v.unknown, params);
  }

  lemma RowsAreServed(ds: seq<BuyDecision>, picks: seq<nat>, selected: seq<Row>, prior: map<string, real>, unknown: set<string>, params: Params)
    requires ServesInOrder(ds, picks, selected) && SizedByScore(ds, picks, selected, prior, unknown, params) && selected != []
    requires var weights := Weights(ScoresOf(selected), params.sizing); |weights| == |selected| && RoomForAll(selected, weights, prior, unknown, params)
    ensures |ds| == |selected|
    ensures TotalNotional(ds) >= params.capital * Clip(params.cashBufferRatio, 1.0) - Halves(selected)
  {
    hide ServedInFull, RoomForAll, TotalNotional, Halves, RightlySized, SumSeq, Clip, DemandIn, AskedInAll, Weights;
    var weights := Weights(ScoresOf(selected), params.sizing);
    NothingServed(ds, picks, selected, weights, params);
    for k := 0 to |selected|
      invariant ServedInFull(ds, picks, selected, weights, k, params)
    {
      ServeOneMore(ds, picks, selected, weights, k, prior, unknown, params);
    }
    AllServed(ds, picks, selected, weights, params);
    AskedIsShare(weights, |weights|, params);
    WeightsSplitTheWhole(ScoresOf(selected), params.sizing);
    assert weights[..|weights|] == weights;
  }

  lemma NothingServed(ds: seq<BuyDecision>, picks: seq<nat>, selected: seq<Row>, weights: seq<real>, params: Params)
    requires |selected| == |weights| && |picks| == |ds|
    ensures ServedInFull(ds, picks, selected, weights, 0, params)
  {
    assert ds[..0] == [] && selected[..0] == [];
  }

  lemma {:induction false} RisesAtLeast(picks: seq<nat>, k: nat)
    requires k <= |picks| && forall i, j :: 0 <= i < j < |picks| ==> picks[i] < picks[j]
    ensures k > 0 ==> picks[k - 1] >= k - 1
  {
    if k > 1 { RisesAtLeast(picks, k - 1); }
  }

  lemma AllServed(ds: seq<BuyDecision>, picks: seq<nat>, selected: seq<Row>, weights: seq<real>, params: Params)
    requires |selected| == |weights| && ServesInOrder(ds, picks, selected) && ServedInFull(ds, picks, selected, weights, |selected|, params)
    ensures |ds| == |selected| && TotalNotional(ds) >= AskedInAll(weights, |selected|, params) - Halves(selected)
  {
    hide TotalNotional, Halves, NotionalIn, AskedInAll;
    var n := |selected|;
    RisesAtLeast(picks, |picks|);
    assert ds[..n] == ds && selected[..n] == selected;
  }
}
