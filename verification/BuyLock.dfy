/** When the lock of a filled but unregistered buy is dropped. */
module BuyLockSpec {
  import opened Common

  /** What the broker says about its holdings: nothing (the call failed), or the rows; a row's shares may be unreadable. */
  datatype HoldingRow = HoldingRow(ticker: string, units: Option<int>)

  /** One look at the holding: lookup failed, a holding, or none (at most one unit). */
  datatype Sight = Failed | Held | Zero

  /** The two metadata entries of a record: how often zero was seen, and when first. */
  datatype Probe = Probe(count: Option<int>, firstSeen: Option<int>)

  const CLEAN := Probe(None, None)

  /** Units held according to the rows: the first row of the ticker; None when it cannot be told. */
  function HoldingUnits(ticker: string, answer: Option<seq<HoldingRow>>): Option<int> {
    if ticker == "" then Some(0)
    else match answer
      case None => None
      case Some(rows) => FirstRow(ticker, rows)
  }

  function FirstRow(ticker: string, rows: seq<HoldingRow>): Option<int> {
    if rows == [] then Some(0)
    else if rows[0].ticker == ticker then rows[0].units
    else FirstRow(ticker, rows[1..])
  }

  function Look(units: Option<int>): Sight {
    match units
    case None => Failed
    case Some(n) => if n > 1 then Held else Zero
  }

  /** The probe after one look, times in microseconds. */
  function AfterLook(p: Probe, sight: Sight, now: int, confirmSeconds: int): Probe {
    if sight != Zero then CLEAN
    else if p.count.GetOr(0) <= 0 || p.firstSeen.None? then Probe(Some(1), Some(now))
    else if now - p.firstSeen.value < confirmSeconds * 1_000_000 then p
    else p.(count := Some(p.count.value + 1))
  }

  /** Whether the look confirms that nothing is held. */
  predicate Confirms(p: Probe, sight: Sight, now: int, confirmSeconds: int) {
    sight == Zero && p.count.GetOr(0) > 0 && p.firstSeen.Some? && now - p.firstSeen.value >= confirmSeconds * 1_000_000
  }

  /** One failed reconciliation of the record: its retry count then, what the broker shows, the clock, and whether
      finalizing the record succeeds. */
  datatype Attempt = Attempt(retries: int, sight: Sight, now: int, finalizes: bool)

  predicate LimitReached(retries: int, maxRetries: int) { retries >= Max(maxRetries - 1, 0) }

  function AfterAttempt(p: Probe, a: Attempt, maxRetries: int, confirmSeconds: int): Probe {
    if LimitReached(a.retries, maxRetries) then AfterLook(p, a.sight, a.now, confirmSeconds) else p
  }

  predicate Drops(p: Probe, a: Attempt, maxRetries: int, confirmSeconds: int) {
    LimitReached(a.retries, maxRetries) && Confirms(p, a.sight, a.now, confirmSeconds) && a.finalizes
  }

  /** The probe of a record after a history of attempts. */
  function ProbeAfter(history: seq<Attempt>, maxRetries: int, confirmSeconds: int): Probe {
    if history == [] then CLEAN
    else AfterAttempt(ProbeAfter(history[..|history| - 1], maxRetries, confirmSeconds), history[|history| - 1], maxRetries, confirmSeconds)
  }
}

module BuyLockFacts {
  import opened BuyLockSpec

  /** A history in which no clock reading is earlier than one before. */
  ghost predicate ClockNeverFalls(history: seq<Attempt>) {
    forall i, j :: 0 <= i < j < |history| ==> history[i].now <= history[j].now
  }

  /** From attempt i on, every look that was made saw nothing held, and i itself made one. */
  ghost predicate ZeroSince(history: seq<Attempt>, i: nat, maxRetries: int) {
    && i < |history| && LimitReached(history[i].retries, maxRetries)
    && forall j :: i <= j < |history| && LimitReached(history[j].retries, maxRetries) ==> history[j].sight == Zero
  }

  lemma ZeroSinceFront(history: seq<Attempt>, i: nat, maxRetries: int)
    requires history != [] && i < |history| - 1
    requires LimitReached(history[|history| - 1].retries, maxRetries) ==> history[|history| - 1].sight == Zero
    ensures ZeroSince(history, i, maxRetries) <==> ZeroSince(history[..|history| - 1], i, maxRetries)
  {
    var front := history[..|history| - 1];
    assert history == front + [history[|history| - 1]];
    if ZeroSince(history, i, maxRetries) {
      forall j | i <= j < |front| && LimitReached(front[j].retries, maxRetries) ensures front[j].sight == Zero {
        assert front[j] == history[j];
      }
      assert front[i] == history[i];
    }
  }

  /** Attempt i is the first look of the current run of looks that saw nothing. */
  ghost predicate StartsTheRun(history: seq<Attempt>, i: nat, maxRetries: int) {
    ZeroSince(history, i, maxRetries) && forall k: nat :: ZeroSince(history, k, maxRetries) ==> k >= i
  }

  /** The probe remembers the start of the current run of looks that saw nothing: the earliest attempt since which
      nothing else was seen. */
  lemma {:induction false} ProbeMarksTheRun(history: seq<Attempt>, maxRetries: int, confirmSeconds: int)
    ensures var p := ProbeAfter(history, maxRetries, confirmSeconds);
      && (p.firstSeen.Some? <==> p.count.GetOr(0) > 0)
      && (p.firstSeen.None? ==> forall i: nat :: !ZeroSince(history, i, maxRetries))
      && (p.firstSeen.Some? ==>
            exists i: nat :: ZeroSince(history, i, maxRetries) && history[i].now == p.firstSeen.value
                             && forall k: nat :: ZeroSince(history, k, maxRetries) ==> k >= i)
  {
    if history != [] {
      var n := |history| - 1;
      var front, last := history[..n], history[n];
      ProbeMarksTheRun(front, maxRetries, confirmSeconds);
      var before := ProbeAfter(front, maxRetries, confirmSeconds);
      if LimitReached(last.retries, maxRetries) && last.sight != Zero {
        forall i: nat ensures !ZeroSince(history, i, maxRetries) {
          assert i <= n ==> i <= n < |history|;
        }
      } else {
        forall i: nat | i < n ensures ZeroSince(history, i, maxRetries) <==> ZeroSince(front, i, maxRetries) {
          ZeroSinceFront(history, i, maxRetries);
        }
        if before.firstSeen.Some? {
          var i: nat :| ZeroSince(front, i, maxRetries) && front[i].now == before.firstSeen.value
                        && forall k: nat :: ZeroSince(front, k, maxRetries) ==> k >= i;
          assert ZeroSince(history, i, maxRetries) && history[i] == front[i];
        } else if LimitReached(last.retries, maxRetries) {
          assert ZeroSince(history, n, maxRetries);
        }
      }
    }
  }

  /** The lock is dropped at an attempt exactly when the retry limit is reached, nothing is held, the record can be
      finalized, and an earlier look, at least the confirm interval before, saw nothing either with no failed lookup and
      no holding seen in between. */
  lemma DroppedExactlyWhenConfirmed(history: seq<Attempt>, a: Attempt, maxRetries: int, confirmSeconds: int)
    requires ClockNeverFalls(history + [a])
    ensures Drops(ProbeAfter(history, maxRetries, confirmSeconds), a, maxRetries, confirmSeconds) <==>
      && LimitReached(a.retries, maxRetries) && a.sight == Zero && a.finalizes
      && exists i: nat :: ZeroSince(history, i, maxRetries) && a.now - history[i].now >= confirmSeconds * 1_000_000
  {
    ProbeMarksTheRun(history, maxRetries, confirmSeconds);
    var p := ProbeAfter(history, maxRetries, confirmSeconds);
    if p.firstSeen.Some? {
      var first: nat :| ZeroSince(history, first, maxRetries) && history[first].now == p.firstSeen.value
                        && forall k: nat :: ZeroSince(history, k, maxRetries) ==> k >= first;
      forall i: nat | ZeroSince(history, i, maxRetries) ensures history[first].now <= history[i].now {
        assert first < i ==> (history + [a])[first].now <= (history + [a])[i].now;
      }
    }
  }

  /** Whatever the clock does, the interval is measured from the first look of the run: the lock is dropped at an attempt exactly
      when the retry limit is reached, nothing is held, the record can be finalized, and that look lies the interval behind. */
  lemma DroppedExactlyWhenFirstLookIsOld(history: seq<Attempt>, a: Attempt, maxRetries: int, confirmSeconds: int)
    ensures Drops(ProbeAfter(history, maxRetries, confirmSeconds), a, maxRetries, confirmSeconds) <==>
      && LimitReached(a.retries, maxRetries) && a.sight == Zero && a.finalizes
      && exists i: nat :: StartsTheRun(history, i, maxRetries) && a.now - history[i].now >= confirmSeconds * 1_000_000
  {
    ProbeMarksTheRun(history, maxRetries, confirmSeconds);
    var p := ProbeAfter(history, maxRetries, confirmSeconds);
    if p.firstSeen.Some? {
      var first: nat :| ZeroSince(history, first, maxRetries) && history[first].now == p.firstSeen.value
                        && forall k: nat :: ZeroSince(history, k, maxRetries) ==> k >= first;
      assert StartsTheRun(history, first, maxRetries);
    }
  }

  /** A clock set back after the first look: the second look lies the interval behind, the first does not, and the lock stays. */
  lemma ClockSetBackKeepsTheLock()
    ensures var history := [Attempt(2, Zero, 10_000_000, true), Attempt(2, Zero, 0, true)];
      var a := Attempt(2, Zero, 10_000_000, true);
      && ZeroSince(history, 1, 3) && a.now - history[1].now >= 5 * 1_000_000
      && !Drops(ProbeAfter(history, 3, 5), a, 3, 5)
  {
    var history := [Attempt(2, Zero, 10_000_000, true), Attempt(2, Zero, 0, true)];
    assert ZeroSince(history, 0, 3);
    DroppedExactlyWhenFirstLookIsOld(history, Attempt(2, Zero, 10_000_000, true), 3, 5);
  }

  /** In particular no lock is dropped without two looks the interval apart that saw nothing. */
  lemma NeverDroppedUnconfirmed(history: seq<Attempt>, a: Attempt, maxRetries: int, confirmSeconds: int)
    requires Drops(ProbeAfter(history, maxRetries, confirmSeconds), a, maxRetries, confirmSeconds)
    ensures LimitReached(a.retries, maxRetries) && a.sight == Zero
    ensures exists i: nat :: ZeroSince(history, i, maxRetries) && a.now - history[i].now >= confirmSeconds * 1_000_000
  {
    ProbeMarksTheRun(history, maxRetries, confirmSeconds);
  }
}

module BuyLocks {
  import opened Common
  import opened BuyLockSpec

  /** The fields of a pending order record the service reads and writes. */
  class PendingRecord {
    const orderId: string
    const ticker: string
    var retryCount: int
    var metadata: Probe
    var finalized: bool

    constructor (orderId: string, ticker: string)
      ensures this.orderId == orderId && this.ticker == ticker && retryCount == 0 && metadata == CLEAN && !finalized
    {
      this.orderId, this.ticker, retryCount, metadata, finalized := orderId, ticker, 0, CLEAN, false;
    }
  }

  class BuyReconciliationService {
    const maxReconcileRetries: int
    const emptyHoldingConfirmSeconds: int

    constructor (maxReconcileRetries: int, emptyHoldingConfirmSeconds: int)
      ensures this.maxReconcileRetries == Max(1, if maxReconcileRetries != 0 then maxReconcileRetries else 3)
      ensures this.emptyHoldingConfirmSeconds == Max(0, emptyHoldingConfirmSeconds)
    {
      this.maxReconcileRetries := Max(1, if maxReconcileRetries != 0 then maxReconcileRetries else 3);
      this.emptyHoldingConfirmSeconds := Max(0, emptyHoldingConfirmSeconds);
    }

    /** `_broker_holding_shares`. */
    method BrokerHoldingUnits(ticker: string, answer: Option<seq<HoldingRow>>) returns (units: Option<int>)
      ensures units == HoldingUnits(ticker, answer)
    {
      if ticker == "" { return Some(0); }
      if answer.None? { return None; }
      var rows := answer.value;
      for i := 0 to |rows|
        invariant FirstRow(ticker, rows) == FirstRow(ticker, rows[i..])
      {
        if rows[i].ticker == ticker { return rows[i].units; }
        assert rows[i..][1..] == rows[i + 1..];
      }
      return Some(0);
    }

    /** `_clear_zero_holding_probe`. */
    method ClearZeroHoldingProbe(record: PendingRecord)
      modifies record`metadata
      ensures record.metadata == CLEAN
    {
      if record.metadata.count.Some? || record.metadata.firstSeen.Some? {
        record.metadata := CLEAN;
      }
    }

    /** `_confirm_repeated_zero_holding`. */
    method ConfirmRepeatedZeroHolding(record: PendingRecord, now: int) returns (confirmed: bool)
      modifies record`metadata
      ensures record.metadata == AfterLook(old(record.metadata), Zero, now, emptyHoldingConfirmSeconds)
      ensures confirmed <==> Confirms(old(record.metadata), Zero, now, emptyHoldingConfirmSeconds)
    {
      var firstSeen := record.metadata.firstSeen;
      var count := record.metadata.count.GetOr(0);
      if count <= 0 || firstSeen.None? {
        record.metadata := Probe(Some(1), Some(now));
        return false;
      }
      var elapsed := now - firstSeen.value;
      if elapsed < emptyHoldingConfirmSeconds * 1_000_000 { return false; }
      record.metadata := record.metadata.(count := Some(count + 1));
      return true;
    }

    /** The drop of a record in `track_failure`: `_should_drop_reconciling_record`, then `_drop_reconciling_record`. */
    method DropIfConfirmed(record: PendingRecord, answer: Option<seq<HoldingRow>>, now: int, finalizes: bool) returns (dropped: bool)
      modifies record`metadata, record`finalized
      ensures var a := Attempt(record.retryCount, Look(HoldingUnits(record.ticker, answer)), now, finalizes);
        && record.metadata == AfterAttempt(old(record.metadata), a, maxReconcileRetries, emptyHoldingConfirmSeconds)
        && (dropped <==> Drops(old(record.metadata), a, maxReconcileRetries, emptyHoldingConfirmSeconds))
        && record.finalized == (old(record.finalized) || dropped)
    {
      if record.retryCount < Max(maxReconcileRetries - 1, 0) { return false; }
      var units := BrokerHoldingUnits(record.ticker, answer);
      if units.None? {
        ClearZeroHoldingProbe(record);
        return false;
      }
      if units.value > 1 {
        ClearZeroHoldingProbe(record);
        return false;
      }
      var confirmed := ConfirmRepeatedZeroHolding(record, now);
      if !confirmed { return false; }
      if !finalizes { return false; }
      record.finalized := true;
      return true;
    }
  }
}
