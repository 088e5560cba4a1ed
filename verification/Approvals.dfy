/** Approval requests and their index by ticker, as values. */
module ApprovalSpec {
  import opened Common

  datatype Strength = Weak | Medium | Strong

  datatype Status = Pending | Approved | Rejected | Expired | Reevaluating

  /** A request; times in microseconds. */
  datatype Request = Request(
    id: nat, ticker: string, strength: Strength, options: seq<int>, createdAt: int,
    status: Status, approvedKrw: int, approvedAt: Option<int>)

  /** All requests by id, and the id of the latest request of a ticker. */
  datatype Book = Book(requests: map<nat, Request>, byTicker: map<string, nat>)

  /** What an approval call tells its caller. */
  datatype Answer = NotFound | AlreadyProcessed(status: Status) | NeedsReevaluation | SignalWeakened | Done

  const EMPTY := Book(map[], map[])

  const REEVAL_AFTER := 60_000_000

  function StrengthLimits(s: Strength): seq<int> {
    match s
    case Weak => [20_000, 30_000]
    case Medium => [30_000, 50_000, 100_000]
    case Strong => [50_000, 100_000, 200_000, 500_000]
  }

  function NewRequest(id: nat, ticker: string, strength: Strength, now: int): Request {
    Request(id, ticker, strength, StrengthLimits(strength), now, Pending, 0, None)
  }

  /** The requests after the pending one the index gives for the ticker, if any, expired. */
  function ExpireLatest(b: Book, ticker: string): map<nat, Request> {
    if ticker in b.byTicker && b.byTicker[ticker] in b.requests && b.requests[b.byTicker[ticker]].status == Pending
    then b.requests[b.byTicker[ticker] := b.requests[b.byTicker[ticker]].(status := Expired)]
    else b.requests
  }

  /** A new request stands open with the amounts its strength allows, nothing approved, and the ticker's pending request before it
      expires; no other request changes. */
  lemma CreatesExactly(b: Book, id: nat, ticker: string, strength: Strength, now: int, other: nat)
    requires id !in b.requests && other != id
    ensures var after := Create(b, id, ticker, strength, now);
      && id in after.requests && after.byTicker == b.byTicker[ticker := id]
      && after.requests[id] == Request(id, ticker, strength, after.requests[id].options, now, Pending, 0, None)
      && after.requests[id].options == (if strength == Weak then [20000, 30000] else if strength == Medium then [30000, 50000, 100000]
                                        else [50000, 100000, 200000, 500000])
      && (other in after.requests <==> other in b.requests)
      && (other in b.requests ==>
            var expires := ticker in b.byTicker && b.byTicker[ticker] == other && b.requests[other].status == Pending;
            after.requests[other] == if expires then b.requests[other].(status := Expired) else b.requests[other])
  {
  }

  function Create(b: Book, id: nat, ticker: string, strength: Strength, now: int): Book {
    Book(ExpireLatest(b, ticker)[id := NewRequest(id, ticker, strength, now)], b.byTicker[ticker := id])
  }

  /** The request takes a new value and leaves the index. */
  function Settle(b: Book, r: Request): Book {
    Book(b.requests[r.id := r], if r.ticker in b.byTicker && b.byTicker[r.ticker] == r.id then b.byTicker - {r.ticker} else b.byTicker)
  }

  function Approve(b: Book, id: nat, krw: int, now: int): (Book, Answer) {
    if id !in b.requests then (b, NotFound)
    else
      var r := b.requests[id];
      if r.status != Pending then (b, AlreadyProcessed(r.status))
      else if now - r.createdAt > REEVAL_AFTER then (b.(requests := b.requests[id := r.(status := Reevaluating)]), NeedsReevaluation)
      else (Settle(b, r.(id := id, status := Approved, approvedKrw := krw, approvedAt := Some(now))), Done)
  }

  function Confirm(b: Book, id: nat, krw: int, signalOk: bool, now: int): (Book, Answer) {
    if id !in b.requests then (b, NotFound)
    else
      var r := b.requests[id].(id := id);
      if !signalOk then (Settle(b, r.(status := Rejected)), SignalWeakened)
      else (Settle(b, r.(status := Approved, approvedKrw := krw, approvedAt := Some(now))), Done)
  }

  function Reject(b: Book, id: nat): (Book, Answer) {
    if id !in b.requests then (b, NotFound)
    else
      var r := b.requests[id].(id := id);
      if r.status != Pending && r.status != Reevaluating then (b, AlreadyProcessed(r.status))
      else (Settle(b, r.(status := Rejected)), Done)
  }

  function LatestPending(b: Book, ticker: string): Option<Request> {
    if ticker in b.byTicker && b.byTicker[ticker] in b.requests && b.requests[b.byTicker[ticker]].status == Pending
    then Some(b.requests[b.byTicker[ticker]])
    else None
  }

  /** The index built while loading the saved requests in the given order: the last pending one of a ticker stays. */
  function IndexFrom(requests: map<nat, Request>, order: seq<nat>): map<string, nat>
    requires forall id :: id in order ==> id in requests
  {
    if order == [] then map[]
    else
      var id := order[|order| - 1];
      var before := IndexFrom(requests, order[..|order| - 1]);
      if requests[id].status == Pending then before[requests[id].ticker := id] else before
  }

  function Reload(b: Book, order: seq<nat>): Book
    requires forall id :: id in order ==> id in b.requests
  {
    Book(b.requests, IndexFrom(b.requests, order))
  }
}

module ApprovalFacts {
  import opened Common
  import opened ApprovalSpec

  /** Requests are stored under their id, every pending request is the one its ticker's index entry names, and index
      entries name requests of their ticker. */
  ghost predicate Consistent(b: Book) {
    && (forall id :: id in b.requests ==> b.requests[id].id == id)
    && (forall id :: id in b.requests && b.requests[id].status == Pending ==>
          b.requests[id].ticker in b.byTicker && b.byTicker[b.requests[id].ticker] == id)
    && (forall ticker :: ticker in b.byTicker ==> b.byTicker[ticker] in b.requests && b.requests[b.byTicker[ticker]].ticker == ticker)
  }

  datatype Op =
    | CreateOp(id: nat, ticker: string, strength: Strength, now: int)
    | ApproveOp(id: nat, krw: int, now: int)
    | ConfirmOp(id: nat, krw: int, signalOk: bool, now: int)
    | RejectOp(id: nat)
    | ReloadOp(order: seq<nat>)

  /** New ids are unused, and a reload reads exactly the saved requests. */
  ghost predicate Possible(b: Book, op: Op) {
    match op
    case CreateOp(id, _, _, _) => id !in b.requests
    case ReloadOp(order) => forall id :: id in order <==> id in b.requests
    case _ => true
  }

  ghost function Step(b: Book, op: Op): Book
    requires Possible(b, op)
  {
    match op
    case CreateOp(id, ticker, strength, now) => Create(b, id, ticker, strength, now)
    case ApproveOp(id, krw, now) => Approve(b, id, krw, now).0
    case ConfirmOp(id, krw, signalOk, now) => Confirm(b, id, krw, signalOk, now).0
    case RejectOp(id) => Reject(b, id).0
    case ReloadOp(order) => Reload(b, order)
  }

  /** The book after the operations, from the empty one; None when one of them is not possible where it comes. */
  ghost function Run(ops: seq<Op>): Option<Book> {
    if ops == [] then Some(EMPTY)
    else
      match Run(ops[..|ops| - 1])
      case None => None
      case Some(b) => if Possible(b, ops[|ops| - 1]) then Some(Step(b, ops[|ops| - 1])) else None
  }

  lemma IndexStep(requests: map<nat, Request>, order: seq<nat>, i: nat)
    requires i < |order| && forall id :: id in order ==> id in requests
    ensures var id := order[i];
            var before := IndexFrom(requests, order[..i]);
      IndexFrom(requests, order[..i + 1]) == if requests[id].status == Pending then before[requests[id].ticker := id] else before
  {
    assert order[..i + 1][..i] == order[..i];
  }

  /** Every index entry names a pending request of its ticker among those read, and all their tickers have entries. */
  ghost predicate Names(index: map<string, nat>, requests: map<nat, Request>, order: seq<nat>) {
    && (forall t :: t in index ==> index[t] in order && index[t] in requests && requests[index[t]].status == Pending && requests[index[t]].ticker == t)
    && (forall id :: id in order && id in requests && requests[id].status == Pending ==> requests[id].ticker in index)
  }

  lemma NamesOneMore(index: map<string, nat>, requests: map<nat, Request>, order: seq<nat>, id: nat)
    requires Names(index, requests, order) && id in requests
    ensures Names(if requests[id].status == Pending then index[requests[id].ticker := id] else index, requests, order + [id])
  {
    assert id in order + [id] && forall i :: i in order ==> i in order + [id];
  }

  /** The index built while loading names a pending request for exactly the tickers that have one. */
  lemma {:induction false} IndexNamesPending(requests: map<nat, Request>, order: seq<nat>)
    requires forall id :: id in order ==> id in requests
    ensures Names(IndexFrom(requests, order), requests, order)
  {
    hide Names;
    if order == [] {
      assert Names(map[], requests, []) by { NothingNamed(requests); }
    } else {
      var front, id := order[..|order| - 1], order[|order| - 1];
      assert order == front + [id];
      IndexNamesPending(requests, front);
      NamesOneMore(IndexFrom(requests, front), requests, front, id);
    }
  }

  lemma IndexOfNothing(requests: map<nat, Request>)
    ensures forall order :: order == [] ==> IndexFrom(requests, order) == map[]
  {
  }

  lemma NothingNamed(requests: map<nat, Request>)
    ensures Names(map[], requests, [])
  {
  }

  lemma ReloadKeepsConsistent(b: Book, order: seq<nat>)
    requires Consistent(b) && forall id :: id in order <==> id in b.requests
    ensures Consistent(Reload(b, order))
  {
    hide IndexFrom;
    IndexNamesPending(b.requests, order);
  }

  /** Each ticker has at most one pending request, and `LatestPending` gives exactly it. */
  lemma LatestIsThePending(b: Book, ticker: string)
    requires Consistent(b)
    ensures forall r :: LatestPending(b, ticker) == Some(r) <==> r.id in b.requests && b.requests[r.id] == r && r.ticker == ticker && r.status == Pending
    ensures forall x, y ::
      x in b.requests && y in b.requests && b.requests[x].status == b.requests[y].status == Pending
      && b.requests[x].ticker == b.requests[y].ticker
      ==> x == y
  {
  }

  /** Reloading the saved requests changes no answer. */
  lemma ReloadKeepsAnswers(b: Book, order: seq<nat>, ticker: string)
    requires Consistent(b) && forall id :: id in order <==> id in b.requests
    ensures LatestPending(Reload(b, order), ticker) == LatestPending(b, ticker)
  {
    hide IndexFrom;
    IndexNamesPending(b.requests, order);
  }

  lemma CreateKeepsConsistent(b: Book, id: nat, ticker: string, strength: Strength, now: int)
    requires Consistent(b) && id !in b.requests
    ensures Consistent(Create(b, id, ticker, strength, now))
  {
    hide StrengthLimits;
  }

  /** A request that takes a settled value, or one under re-evaluation, needs no index entry. */
  lemma SettleKeepsConsistent(b: Book, r: Request)
    requires Consistent(b) && r.id in b.requests && r.ticker == b.requests[r.id].ticker && r.status != Pending
    ensures Consistent(Settle(b, r)) && Consistent(b.(requests := b.requests[r.id := r]))
  {
  }

  lemma StepKeepsConsistent(b: Book, op: Op)
    requires Consistent(b) && Possible(b, op)
    ensures Consistent(Step(b, op))
  {
    match op
    case CreateOp(id, ticker, strength, now) => CreateKeepsConsistent(b, id, ticker, strength, now);
    case ReloadOp(order) => ReloadKeepsConsistent(b, order);
    case ApproveOp(id, krw, now) =>
      if id in b.requests {
        IdMatches(b, id);
        hide Consistent, Settle;
        SettleKeepsConsistent(b, b.requests[id].(status := Reevaluating));
        SettleKeepsConsistent(b, b.requests[id].(id := id, status := Approved, approvedKrw := krw, approvedAt := Some(now)));
      }
    case ConfirmOp(id, krw, signalOk, now) =>
      if id in b.requests {
        IdMatches(b, id);
        hide Consistent, Settle;
        SettleKeepsConsistent(b, b.requests[id].(id := id).(status := Rejected));
        SettleKeepsConsistent(b, b.requests[id].(id := id).(status := Approved, approvedKrw := krw, approvedAt := Some(now)));
      }
    case RejectOp(id) =>
      if id in b.requests {
        IdMatches(b, id);
        hide Consistent, Settle;
        SettleKeepsConsistent(b, b.requests[id].(id := id).(status := Rejected));
      }
  }

  lemma IdMatches(b: Book, id: nat)
    requires Consistent(b) && id in b.requests
    ensures b.requests[id].id == id
  {
  }

  /** Over every run, also through reloads: at most one pending request for each ticker, found by `LatestPending`, and
      found again after one more reload. */
  lemma {:induction false} EveryRunIsConsistent(ops: seq<Op>)
    requires Run(ops).Some?
    ensures Consistent(Run(ops).value)
  {
    if ops != [] {
      EveryRunIsConsistent(ops[..|ops| - 1]);
      StepKeepsConsistent(Run(ops[..|ops| - 1]).value, ops[|ops| - 1]);
    }
  }

  predicate Open(s: Status) { s == Pending || s == Reevaluating }

  /** A settled request is changed by a confirmation of it and by nothing else; an open one never becomes pending again. */
  lemma SettledUnlessConfirmed(b: Book, op: Op, id: nat)
    requires Consistent(b) && Possible(b, op) && id in b.requests
    ensures id in Step(b, op).requests && Step(b, op).requests[id].ticker == b.requests[id].ticker
    ensures !Open(b.requests[id].status) && !(op.ConfirmOp? && op.id == id) ==> Step(b, op).requests[id] == b.requests[id]
    ensures Step(b, op).requests[id].status == Pending ==> b.requests[id].status == Pending
    ensures op.ConfirmOp? && op.id == id ==> Step(b, op).requests[id].status == if op.signalOk then Approved else Rejected
  {
  }

  /** From every request that can be reached, settled or not, a confirmation with a good signal makes an approved one. */
  lemma ConfirmationRevives(ops: seq<Op>, id: nat, krw: int, now: int)
    requires Run(ops).Some? && id in Run(ops).value.requests
    ensures var again := Run(ops + [ConfirmOp(id, krw, true, now)]);
      && again.Some? && again.value.requests[id].status == Approved && again.value.requests[id].approvedKrw == krw
      && LatestPending(again.value, again.value.requests[id].ticker) ==
           if Run(ops).value.requests[id].status == Pending then None else LatestPending(Run(ops).value, again.value.requests[id].ticker)
  {
    var op, b := ConfirmOp(id, krw, true, now), Run(ops).value;
    assert (ops + [op])[..|ops|] == ops;
    EveryRunIsConsistent(ops);
    SettledUnlessConfirmed(b, op, id);
  }

  /** A rejected request that is confirmed afterwards is approved. */
  lemma RejectedIsRevived()
    ensures var ops := [CreateOp(7, "T", Strong, 0), RejectOp(7)];
      && Run(ops).Some? && Run(ops).value.requests[7].status == Rejected
      && var again := Run(ops + [ConfirmOp(7, 50_000, true, 1)]);
         again.Some? && again.value.requests[7].status == Approved
  {
    var create, reject := CreateOp(7, "T", Strong, 0), RejectOp(7);
    assert [create][..0] == [] && [create, reject][..1] == [create];
    assert Run([]) == Some(EMPTY);
    assert Run([create]) == Some(Create(EMPTY, 7, "T", Strong, 0));
    ConfirmationRevives([create, reject], 7, 50_000, 1);
  }

  /** An amount is recorded only with an approval: within a minute of the request, or by a confirmation. */
  lemma ApprovedInTime(b: Book, op: Op, id: nat)
    requires Consistent(b) && Possible(b, op) && id in b.requests
    requires b.requests[id].status != Approved && Step(b, op).requests[id].status == Approved
    ensures (op.ApproveOp? && op.id == id && b.requests[id].status == Pending && op.now - b.requests[id].createdAt <= 60_000_000)
            || (op.ConfirmOp? && op.id == id && op.signalOk)
    ensures Step(b, op).requests[id].approvedKrw == op.krw && Step(b, op).requests[id].approvedAt == Some(op.now)
    ensures LatestPending(Step(b, op), b.requests[id].ticker).Some? ==>
              LatestPending(Step(b, op), b.requests[id].ticker) == LatestPending(b, b.requests[id].ticker)
  {
  }
}

/** `ApprovalManager`, whose requests are objects updated in place. */
module Approvals {
  import opened Common
  import opened ApprovalSpec
  import opened ApprovalFacts

  class ApprovalRequest {
    const id: nat
    const ticker: string
    const strength: Strength
    const options: seq<int>
    const createdAt: int
    var status: Status
    var approvedKrw: int
    var approvedAt: Option<int>

    constructor (r: Request)
      ensures Value() == r
    {
      id, ticker, strength, options, createdAt := r.id, r.ticker, r.strength, r.options, r.createdAt;
      status, approvedKrw, approvedAt := r.status, r.approvedKrw, r.approvedAt;
    }

    function Value(): Request
      reads this
    {
      Request(id, ticker, strength, options, createdAt, status, approvedKrw, approvedAt)
    }
  }

  class ApprovalManager {
    var requests: map<nat, ApprovalRequest>
    var byTicker: map<string, nat>

    ghost function Book(): Book
      reads this, requests.Values
    {
      ApprovalSpec.Book(map id | id in requests :: requests[id].Value(), byTicker)
    }

    ghost predicate Valid()
      reads this, requests.Values
    {
      Consistent(Book())
    }

    /** `_load`: rebuild the index from the saved requests, read in the given order. */
    constructor (saved: map<nat, Request>, order: seq<nat>)
      requires forall id :: id in order <==> id in saved
      ensures Book() == Reload(ApprovalSpec.Book(saved, map[]), order)
      ensures forall id :: id in requests ==> fresh(requests[id])
    {
      requests, byTicker := map[], map[];
      new;
      Load(saved, order);
    }

    method Load(saved: map<nat, Request>, order: seq<nat>)
      requires requests == map[] && byTicker == map[] && forall id :: id in order <==> id in saved
      modifies this
      ensures Book() == Reload(ApprovalSpec.Book(saved, map[]), order)
      ensures forall id :: id in requests ==> fresh(requests[id])
    {
      IndexOfNothing(saved);
      hide IndexFrom;
      for i := 0 to |order|
        invariant forall id :: id in requests ==> id in saved && fresh(requests[id]) && requests[id].Value() == saved[id]
        invariant forall j :: 0 <= j < i ==> order[j] in requests
        invariant byTicker == IndexFrom(saved, order[..i])
      {
        assert order[i] in order;
        IndexStep(saved, order, i);
        LoadOne(order[i], saved[order[i]]);
      }
      assert order[..|order|] == order;
      forall id | id in saved ensures id in requests {
        var j :| 0 <= j < |order| && order[j] == id;
      }
      assert Book().requests == saved;
    }

    method LoadOne(id: nat, r: Request)
      modifies this
      ensures id in requests && fresh(requests[id]) && requests[id].Value() == r && requests == old(requests)[id := requests[id]]
      ensures byTicker == if r.status == Pending then old(byTicker)[r.ticker := id] else old(byTicker)
    {
      var request := new ApprovalRequest(r);
      requests := requests[id := request];
      if request.status == Pending {
        byTicker := byTicker[request.ticker := id];
      }
    }

    /** Requests sit under their own id, so no two ids share an object. */
    lemma KeyedById()
      requires Valid()
      ensures forall id :: id in requests ==> requests[id].id == id
    {
      forall id | id in requests ensures requests[id].id == id {
        assert id in Book().requests && Book().requests[id] == requests[id].Value();
      }
    }

    /** The pending request of the ticker, if there is one, expires. */
    method ExpireOld(ticker: string)
      requires Valid()
      modifies requests.Values
      ensures Book() == ApprovalSpec.Book(ExpireLatest(old(Book()), ticker), byTicker)
    {
      KeyedById();
      hide Consistent;
      ghost var before := Book();
      if ticker in byTicker {
        var oldId := byTicker[ticker];
        if oldId in requests && requests[oldId].status == Pending {
          requests[oldId].status := Expired;
          assert Book().requests == before.requests[oldId := requests[oldId].Value()];
        }
      }
    }

    method Register(request: ApprovalRequest)
      modifies this
      ensures requests == old(requests)[request.id := request] && byTicker == old(byTicker)[request.ticker := request.id]
      ensures Book().requests == old(Book().requests)[request.id := request.Value()]
    {
      requests := requests[request.id := request];
      byTicker := byTicker[request.ticker := request.id];
    }

    method CreateRequest(id: nat, ticker: string, strength: Strength, now: int) returns (request: ApprovalRequest)
      requires Valid() && id !in requests
      modifies this, requests.Values
      ensures Valid() && Book() == Create(old(Book()), id, ticker, strength, now)
      ensures fresh(request) && requests == old(requests)[id := request]
    {
      hide Consistent, ExpireLatest, StrengthLimits;
      StepKeepsConsistent(Book(), CreateOp(id, ticker, strength, now));
      ghost var before := Book();
      ExpireOld(ticker);
      request := new ApprovalRequest(NewRequest(id, ticker, strength, now));
      Register(request);
    }

    method GetLatestPending(ticker: string) returns (found: ApprovalRequest?)
      requires Valid()
      ensures match LatestPending(Book(), ticker)
        case None => found == null
        case Some(r) => found != null && r.id in requests && found == requests[r.id] && found.Value() == r
    {
      if ticker !in byTicker { return null; }
      var id := byTicker[ticker];
      if id in requests && requests[id].status == Pending { return requests[id]; }
      return null;
    }

    method Unindex(request: ApprovalRequest)
      modifies this`byTicker
      ensures byTicker == if request.ticker in old(byTicker) && old(byTicker)[request.ticker] == request.id
                          then old(byTicker) - {request.ticker} else old(byTicker)
    {
      if request.ticker in byTicker && byTicker[request.ticker] == request.id {
        byTicker := byTicker - {request.ticker};
      }
    }

    method Approve(id: nat, krw: int, now: int) returns (answer: Answer)
      requires Valid()
      modifies this`byTicker, requests.Values
      ensures Valid() && (Book(), answer) == ApprovalSpec.Approve(old(Book()), id, krw, now)
    {
      hide Consistent;
      KeyedById();
      StepKeepsConsistent(Book(), ApproveOp(id, krw, now));
      ghost var before := Book();
      if id !in requests { return NotFound; }
      var request := requests[id];
      assert request.Value() == before.requests[id];
      if request.status != Pending { return AlreadyProcessed(request.status); }
      if now - request.createdAt > REEVAL_AFTER {
        request.status := Reevaluating;
        assert Book().requests == before.requests[id := request.Value()];
        return NeedsReevaluation;
      }
      request.status, request.approvedKrw, request.approvedAt := Approved, krw, Some(now);
      Unindex(request);
      assert Book().requests == before.requests[id := request.Value()];
      return Done;
    }

    method ConfirmAfterReeval(id: nat, krw: int, signalOk: bool, now: int) returns (answer: Answer)
      requires Valid()
      modifies this`byTicker, requests.Values
      ensures Valid() && (Book(), answer) == Confirm(old(Book()), id, krw, signalOk, now)
    {
      hide Consistent;
      KeyedById();
      StepKeepsConsistent(Book(), ConfirmOp(id, krw, signalOk, now));
      ghost var before := Book();
      if id !in requests { return NotFound; }
      var request := requests[id];
      assert request.Value() == before.requests[id];
      if !signalOk {
        request.status := Rejected;
        Unindex(request);
        assert Book().requests == before.requests[id := request.Value()];
        return SignalWeakened;
      }
      request.status, request.approvedKrw, request.approvedAt := Approved, krw, Some(now);
      Unindex(request);
      assert Book().requests == before.requests[id := request.Value()];
      return Done;
    }

    method Reject(id: nat) returns (answer: Answer)
      requires Valid()
      modifies this`byTicker, requests.Values
      ensures Valid() && (Book(), answer) == ApprovalSpec.Reject(old(Book()), id)
    {
      hide Consistent;
      KeyedById();
      StepKeepsConsistent(Book(), RejectOp(id));
      ghost var before := Book();
      if id !in requests { return NotFound; }
      var request := requests[id];
      assert request.Value() == before.requests[id];
      if request.status != Pending && request.status != Reevaluating { return AlreadyProcessed(request.status); }
      request.status := Rejected;
      Unindex(request);
      assert Book().requests == before.requests[id := request.Value()];
      return Done;
    }
  }
}
