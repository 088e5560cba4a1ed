/** The lagged lookup in a dict of daily rows, as a plain scan over its keys. */
module FeatureLagSpec {
  import opened Common
  import opened Sorting

  /** How a ten-character date text is read: the day number, or None. */
  type DateReader = string -> Option<int>

  /** A value of the dict: a row, or something that is not a dict. */
  datatype Value<+R> = Row(row: R) | NotARow

  /** A dict with its keys in the order they were inserted. */
  datatype Daily<+R> = Daily(order: seq<string>, rows: map<string, Value<R>>)

  ghost predicate WellFormed<R>(d: Daily<R>) {
    forall key :: key in d.order <==> key in d.rows
  }

  /** A dated key, cut to ten characters. */
  datatype Entry = Entry(date: int, key: string)

  function Prefix(key: string): string { key[..Min(10, |key|)] }

  function DateOf(key: string, read: DateReader): Option<int> { read(Prefix(key)) }

  /** The dated keys in dict order. */
  function Entries(order: seq<string>, read: DateReader): seq<Entry> {
    if order == [] then []
    else
      var rest := Entries(order[1..], read);
      match DateOf(order[0], read)
      case Some(date) => [Entry(date, Prefix(order[0]))] + rest
      case None => rest
  }

  function EarlierEntry(): (Entry, Entry) -> bool { (a: Entry, b: Entry) => a.date <= b.date }

  function Index(order: seq<string>, read: DateReader): seq<Entry> {
    StableSort(Entries(order, read), EarlierEntry())
  }

  /** Prefer `a`, which stands before, to what was found behind it only when it is strictly newer. */
  function Newer(a: Entry, found: Option<Entry>, cutoff: int): Option<Entry> {
    if a.date <= cutoff && (found.None? || a.date > found.value.date) then Some(a) else found
  }

  /** The plain scan: the entry with the newest date not after the cutoff, the last of them in dict order. */
  function Scan(entries: seq<Entry>, cutoff: int): Option<Entry> {
    if entries == [] then None else Newer(entries[0], Scan(entries[1..], cutoff), cutoff)
  }

  function Cutoff(tradeDate: int, lagDays: int): int { tradeDate - Max(0, lagDays) }

  predicate Stale(date: int, cutoff: int, maxAge: Option<int>) {
    maxAge.Some? && maxAge.value >= 0 && cutoff - date > maxAge.value
  }

  /** The row of the selected entry, unless it is too old, gone, or not a row. */
  function RowOf<R>(d: Daily<R>, selected: Option<Entry>, cutoff: int, maxAge: Option<int>): Option<R> {
    match selected
    case None => None
    case Some(e) =>
      if Stale(e.date, cutoff, maxAge) || e.key !in d.rows then None
      else
        match d.rows[e.key]
        case Row(row) => Some(row)
        case NotARow => None
  }

  /** The lookup as it is meant: scan the dict as it is now. None stands for the empty dict it gives. */
  function Lookup<R>(d: Daily<R>, tradeDate: Option<int>, lagDays: int, maxAge: Option<int>, read: DateReader): Option<R> {
    match tradeDate
    case None => None
    case Some(day) => RowOf(d, Scan(Entries(d.order, read), Cutoff(day, lagDays)), Cutoff(day, lagDays), maxAge)
  }
}

module FeatureLagFacts {
  import opened Common
  import opened Sorting
  import opened FeatureLagSpec

  // ---- the index and the scan agree ----------------------------------------------

  lemma {:induction false} ScanAfterInsert(x: Entry, s: seq<Entry>, cutoff: int)
    ensures Scan(Insert(x, s, EarlierEntry()), cutoff) == Newer(x, Scan(s, cutoff), cutoff)
  {
    if s == [] {
      assert [x][1..] == [];
    } else if EarlierEntry()(x, s[0]) {
      assert ([x] + s)[1..] == s;
    } else {
      var rest := Insert(x, s[1..], EarlierEntry());
      ScanAfterInsert(x, s[1..], cutoff);
      assert ([s[0]] + rest)[1..] == rest;
    }
  }

  /** Sorting does not change what the scan finds. */
  lemma {:induction false} ScanAfterSort(s: seq<Entry>, cutoff: int)
    ensures Scan(StableSort(s, EarlierEntry()), cutoff) == Scan(s, cutoff)
  {
    if s != [] {
      ScanAfterSort(s[1..], cutoff);
      ScanAfterInsert(s[0], StableSort(s[1..], EarlierEntry()), cutoff);
    }
  }

  ghost predicate InDateOrder(index: seq<Entry>) {
    forall i, j :: 0 <= i < j < |index| ==> index[i].date <= index[j].date
  }

  /** The first `pos` entries are those not after the cutoff. */
  ghost predicate SplitsAt(index: seq<Entry>, cutoff: int, pos: nat) {
    pos <= |index| && forall i :: 0 <= i < |index| ==> (index[i].date <= cutoff <==> i < pos)
  }

  /** In a sorted index the scan finds the entry before the split. */
  lemma {:induction false} ScanOfSorted(index: seq<Entry>, cutoff: int, pos: nat)
    requires InDateOrder(index) && SplitsAt(index, cutoff, pos)
    ensures Scan(index, cutoff) == if pos == 0 then None else Some(index[pos - 1])
  {
    if index != [] {
      var rest := index[1..];
      ScanOfSorted(rest, cutoff, Max(pos - 1, 0));
      assert pos > 1 ==> rest[pos - 2] == index[pos - 1];
    }
  }

  lemma IndexOfNothing(order: seq<string>, read: DateReader)
    requires order == []
    ensures Index(order, read) == []
  {
  }

  lemma IndexIsSorted(order: seq<string>, read: DateReader)
    ensures InDateOrder(Index(order, read))
  {
    var entries := Entries(order, read);
    SortSorts(entries, EarlierEntry());
    var index := Index(order, read);
    forall i, j | 0 <= i < j < |index| ensures index[i].date <= index[j].date {
      assert EarlierEntry()(index[i], index[j]);
    }
  }

  // ---- what the scan means -------------------------------------------------------

  ghost predicate Genuine(entries: seq<Entry>, read: DateReader) {
    forall e :: e in entries ==> |e.key| <= 10 && read(e.key) == Some(e.date)
  }

  lemma {:induction false} EntriesAreGenuine(order: seq<string>, read: DateReader)
    ensures Genuine(Entries(order, read), read)
    ensures forall e :: e in Entries(order, read) ==> exists key :: key in order && Prefix(key) == e.key && DateOf(key, read) == Some(e.date)
    ensures forall key :: key in order && DateOf(key, read).Some? ==> Entry(DateOf(key, read).value, Prefix(key)) in Entries(order, read)
  {
    if order != [] {
      EntriesAreGenuine(order[1..], read);
      assert order == [order[0]] + order[1..];
    }
  }

  /** What is found is an entry not after the cutoff, and no such entry is newer. */
  lemma {:induction false} ScanFindsNewest(entries: seq<Entry>, cutoff: int)
    ensures var found := Scan(entries, cutoff);
      && (found.Some? ==> found.value in entries && found.value.date <= cutoff)
      && (forall e :: e in entries && e.date <= cutoff ==> found.Some? && e.date <= found.value.date)
  {
    if entries != [] {
      ScanFindsNewest(entries[1..], cutoff);
      assert entries == [entries[0]] + entries[1..];
    }
  }

  /** The i-th key has the newest date not after the cutoff, and stands last among the keys of that date. */
  ghost predicate NewestAt(order: seq<string>, i: nat, cutoff: int, read: DateReader) {
    && i < |order| && DateOf(order[i], read).Some? && DateOf(order[i], read).value <= cutoff
    && forall j :: 0 <= j < |order| && DateOf(order[j], read).Some? && DateOf(order[j], read).value <= cutoff ==>
         DateOf(order[j], read).value < DateOf(order[i], read).value || (DateOf(order[j], read) == DateOf(order[i], read) && j <= i)
  }

  /** The entry of the key that is newest so, cut to ten characters. */
  ghost predicate Names(e: Entry, order: seq<string>, i: nat, cutoff: int, read: DateReader) {
    NewestAt(order, i, cutoff, read) && e == Entry(DateOf(order[i], read).value, Prefix(order[i]))
  }

  ghost predicate AllLater(order: seq<string>, cutoff: int, read: DateReader) {
    forall i: nat :: i < |order| && DateOf(order[i], read).Some? ==> DateOf(order[i], read).value > cutoff
  }

  /** What the scan selects is exactly that entry. */
  lemma {:induction false} ScanSelectsNewest(order: seq<string>, cutoff: int, read: DateReader)
    ensures match Scan(Entries(order, read), cutoff)
            case None => AllLater(order, cutoff, read)
            case Some(e) => exists i: nat :: Names(e, order, i, cutoff, read)
  {
    hide Prefix, DateOf, Names, AllLater, Scan, Entries;
    if order == [] {
      NothingScanned(order, cutoff, read);
    } else {
      var rest := order[1..];
      ScanSelectsNewest(rest, cutoff, read);
      ScanFront(order, cutoff, read);
      var later := Scan(Entries(rest, read), cutoff);
      if later.Some? {
        var i: nat :| Names(later.value, rest, i, cutoff, read);
        NamedFurtherOn(order, later.value, i, cutoff, read);
      } else {
        FirstIsNamed(order, cutoff, read);
      }
    }
  }

  lemma NothingScanned(order: seq<string>, cutoff: int, read: DateReader)
    requires order == []
    ensures Scan(Entries(order, read), cutoff) == None && AllLater(order, cutoff, read)
  {
  }

  lemma NamedFurtherOn(order: seq<string>, e: Entry, i: nat, cutoff: int, read: DateReader)
    requires order != [] && Names(e, order[1..], i, cutoff, read)
    ensures var date := DateOf(order[0], read);
      if date.Some? && date.value <= cutoff && date.value > e.date then Names(Entry(date.value, Prefix(order[0])), order, 0, cutoff, read)
      else Names(e, order, i + 1, cutoff, read)
  {
    hide DateOf, Prefix;
    forall k: nat | 0 < k < |order| ensures order[k] == order[1..][k - 1] {
    }
  }

  lemma FirstIsNamed(order: seq<string>, cutoff: int, read: DateReader)
    requires order != [] && AllLater(order[1..], cutoff, read)
    ensures var date := DateOf(order[0], read);
      if date.Some? && date.value <= cutoff then Names(Entry(date.value, Prefix(order[0])), order, 0, cutoff, read)
      else AllLater(order, cutoff, read)
  {
    hide DateOf, Prefix;
    forall k: nat | 0 < k < |order| ensures order[k] == order[1..][k - 1] {
    }
  }

  lemma ScanFront(order: seq<string>, cutoff: int, read: DateReader)
    requires order != []
    ensures var rest := Scan(Entries(order[1..], read), cutoff);
      Scan(Entries(order, read), cutoff) ==
        match DateOf(order[0], read)
        case None => rest
        case Some(date) => Newer(Entry(date, Prefix(order[0])), rest, cutoff)
  {
    var rest := Entries(order[1..], read);
    if DateOf(order[0], read).Some? {
      var e := Entry(DateOf(order[0], read).value, Prefix(order[0]));
      assert ([e] + rest)[1..] == rest;
    }
  }

  lemma NewestIsUnique(order: seq<string>, i: nat, j: nat, cutoff: int, read: DateReader)
    requires NewestAt(order, i, cutoff, read) && NewestAt(order, j, cutoff, read)
    ensures i == j
  {
  }

  /** What the lag makes of the trade date: a negative lag counts as none. */
  lemma LagIsTakenOff(tradeDate: int, lagDays: int)
    ensures Cutoff(tradeDate, lagDays) == if lagDays > 0 then tradeDate - lagDays else tradeDate
  {
  }

  /** An age limit of zero or more is kept; none, or a negative one, is no limit. */
  lemma StaleExactlyWhen(date: int, cutoff: int, maxAge: Option<int>)
    ensures Stale(date, cutoff, maxAge) <==> maxAge.Some? && maxAge.value >= 0 && date + maxAge.value < cutoff
  {
  }

  /** The lookup gives exactly the row under the newest date not after trade date minus lag, if it is not too old: of several
      keys of that date the last one counts, and its first ten characters must be a key. */
  lemma LookupGivesNewestRow<R>(d: Daily<R>, tradeDate: int, lagDays: int, maxAge: Option<int>, read: DateReader, row: R)
    ensures var last := if lagDays > 0 then tradeDate - lagDays else tradeDate;
      Lookup(d, Some(tradeDate), lagDays, maxAge, read) == Some(row) <==>
      exists i: nat :: NewestAt(d.order, i, last, read)
                       && !(maxAge.Some? && maxAge.value >= 0 && DateOf(d.order[i], read).value + maxAge.value < last)
                       && Prefix(d.order[i]) in d.rows && d.rows[Prefix(d.order[i])] == Row(row)
  {
    hide Scan, Entries, Stale, Prefix, DateOf, Cutoff;
    LagIsTakenOff(tradeDate, lagDays);
    var cutoff := Cutoff(tradeDate, lagDays);
    ScanSelectsNewest(d.order, cutoff, read);
    var found := Scan(Entries(d.order, read), cutoff);
    if found.None? {
      forall i: nat ensures !NewestAt(d.order, i, cutoff, read) { NewestIsDated(d.order, i, cutoff, read); }
    } else {
      var k: nat :| Names(found.value, d.order, k, cutoff, read);
      forall i: nat | NewestAt(d.order, i, cutoff, read) ensures i == k { NewestIsUnique(d.order, i, k, cutoff, read); }
      StaleExactlyWhen(found.value.date, cutoff, maxAge);
    }
  }

  /** A lag of n days is n days of the trade date, and a negative lag is none. */
  lemma LagShifts<R>(d: Daily<R>, tradeDate: int, lagDays: int, maxAge: Option<int>, read: DateReader)
    ensures lagDays >= 0 ==> Lookup(d, Some(tradeDate), lagDays, maxAge, read) == Lookup(d, Some(tradeDate - lagDays), 0, maxAge, read)
    ensures lagDays < 0 ==> Lookup(d, Some(tradeDate), lagDays, maxAge, read) == Lookup(d, Some(tradeDate), 0, maxAge, read)
  {
    hide Scan, Entries, RowOf;
  }

  lemma NewestIsDated(order: seq<string>, i: nat, cutoff: int, read: DateReader)
    ensures NewestAt(order, i, cutoff, read) ==> i < |order| && DateOf(order[i], read).Some? && DateOf(order[i], read).value <= cutoff
  {
  }

  /** No two keys of the same date. */
  ghost predicate DatesOnce(order: seq<string>, read: DateReader) {
    forall a, b :: a in order && b in order && DateOf(a, read).Some? && DateOf(a, read) == DateOf(b, read) ==> a == b
  }

  /** Key `key` has the newest date not after the cutoff. */
  ghost predicate NewestKey(key: string, order: seq<string>, cutoff: int, read: DateReader) {
    && key in order && DateOf(key, read).Some? && DateOf(key, read).value <= cutoff
    && forall other :: other in order && DateOf(other, read).Some? && DateOf(other, read).value <= cutoff ==>
         DateOf(other, read).value <= DateOf(key, read).value
  }

  /** In a dict with one key for each date, the row is given exactly when that key has no more than ten characters: a longer
      one, with a time behind the date, is selected and then missed. */
  lemma OneKeyForEachDate<R>(d: Daily<R>, tradeDate: int, lagDays: int, maxAge: Option<int>, read: DateReader, row: R)
    requires WellFormed(d) && DatesOnce(d.order, read)
    ensures var last := if lagDays > 0 then tradeDate - lagDays else tradeDate;
      Lookup(d, Some(tradeDate), lagDays, maxAge, read) == Some(row) <==>
      exists key :: NewestKey(key, d.order, last, read)
                    && !(maxAge.Some? && maxAge.value >= 0 && DateOf(key, read).value + maxAge.value < last)
                    && |key| <= 10 && d.rows[key] == Row(row)
  {
    hide Lookup, Prefix, DateOf, DatesOnce, NewestKey;
    var cutoff := if lagDays > 0 then tradeDate - lagDays else tradeDate;
    LookupGivesNewestRow(d, tradeDate, lagDays, maxAge, read, row);
    forall i: nat | NewestAt(d.order, i, cutoff, read) ensures NewestKey(d.order[i], d.order, cutoff, read) {
      NewestAtIsKey(d.order, i, cutoff, read);
    }
    forall key | NewestKey(key, d.order, cutoff, read)
      ensures key in d.rows && (Prefix(key) in d.rows <==> |key| <= 10) && (|key| <= 10 ==> Prefix(key) == key)
      ensures exists i: nat :: NewestAt(d.order, i, cutoff, read) && d.order[i] == key
    {
      KeyOrMissed(d, key, cutoff, read);
      var i := KeyStandsLast(d.order, key, cutoff, read);
    }
  }

  lemma NewestAtIsKey(order: seq<string>, i: nat, cutoff: int, read: DateReader)
    requires NewestAt(order, i, cutoff, read)
    ensures NewestKey(order[i], order, cutoff, read)
  {
    hide DateOf;
  }

  lemma KeyStandsLast(order: seq<string>, key: string, cutoff: int, read: DateReader) returns (i: nat)
    requires DatesOnce(order, read) && NewestKey(key, order, cutoff, read)
    ensures NewestAt(order, i, cutoff, read) && order[i] == key
  {
    hide DateOf;
    i := |order|;
    while i > 0 && order[i - 1] != key
      invariant i <= |order| && forall j :: i <= j < |order| ==> order[j] != key
    {
      i := i - 1;
    }
    i := i - 1;
  }

  lemma KeyOrMissed<R>(d: Daily<R>, key: string, cutoff: int, read: DateReader)
    requires WellFormed(d) && DatesOnce(d.order, read) && NewestKey(key, d.order, cutoff, read)
    ensures key in d.rows && (Prefix(key) in d.rows <==> |key| <= 10) && (|key| <= 10 ==> Prefix(key) == key)
  {
    assert |key| <= 10 ==> Prefix(key) == key;
    assert Prefix(Prefix(key)) == Prefix(key);
    assert DateOf(Prefix(key), read) == DateOf(key, read);
  }

  /** A reader that knows two days. */
  function TwoDays(): DateReader { (text: string) => if text == "2024-01-04" then Some(4) else if text == "2024-01-05" then Some(5) else None }

  /** A key with a time behind its date hides the row under it, and the row of the day before. */
  lemma LongKeyIsMissed()
    ensures var d := Daily(["2024-01-04", "2024-01-05T16:00"], map["2024-01-04" := Row(4), "2024-01-05T16:00" := Row(5)]);
      && WellFormed(d) && NewestKey("2024-01-05T16:00", d.order, 9, TwoDays())
      && Lookup(d, Some(9), 0, None, TwoDays()) == None && Lookup(d, Some(4), 0, None, TwoDays()) == Some(4)
  {
    hide Scan, Entries;
    var d := Daily(["2024-01-04", "2024-01-05T16:00"], map["2024-01-04" := Row(4), "2024-01-05T16:00" := Row(5)]);
    assert Prefix("2024-01-04") == "2024-01-04" && Prefix("2024-01-05T16:00") == "2024-01-05";
    assert d.order[0] == "2024-01-04" && d.order[1] == "2024-01-05T16:00";
    assert NewestAt(d.order, 1, 9, TwoDays()) && NewestAt(d.order, 0, 4, TwoDays());
    ScanSelectsNewest(d.order, 9, TwoDays());
    ScanSelectsNewest(d.order, 4, TwoDays());
  }

  /** The row stands under a key dated at least the lag before the trade date, and not too long before. */
  ghost predicate InTime<R(!new)>(row: R, d: Daily<R>, tradeDate: int, lagDays: int, maxAge: Option<int>, read: DateReader) {
    exists key ::
      && key in d.rows && d.rows[key] == Row(row) && DateOf(key, read).Some?
      && var date := DateOf(key, read).value;
         && date <= tradeDate && (lagDays >= 1 ==> date + lagDays <= tradeDate)
         && (maxAge.Some? && maxAge.value >= 0 ==> tradeDate - (if lagDays > 0 then lagDays else 0) <= date + maxAge.value)
  }

  /** Whatever keys the index was made from, a row that is given stands under a key dated no later than the trade date less the
      lag, hence never after the trade date and before it when there is a lag, and it is not too old. */
  lemma NeverLooksAhead<R(!new)>(d: Daily<R>, before: seq<string>, tradeDate: int, lagDays: int, maxAge: Option<int>, read: DateReader)
    ensures var row := MemoGives(d, before, tradeDate, lagDays, maxAge, read);
      row.Some? ==> InTime(row.value, d, tradeDate, lagDays, maxAge, read)
    ensures var row := Lookup(d, Some(tradeDate), lagDays, maxAge, read);
      row.Some? ==> InTime(row.value, d, tradeDate, lagDays, maxAge, read)
  {
    GivenInTime(d, before, tradeDate, lagDays, maxAge, read);
    GivenInTime(d, d.order, tradeDate, lagDays, maxAge, read);
  }

  lemma GivenInTime<R(!new)>(d: Daily<R>, before: seq<string>, tradeDate: int, lagDays: int, maxAge: Option<int>, read: DateReader)
    ensures var row := MemoGives(d, before, tradeDate, lagDays, maxAge, read);
      row.Some? ==> InTime(row.value, d, tradeDate, lagDays, maxAge, read)
  {
    hide Scan, Entries;
    var cutoff := Cutoff(tradeDate, lagDays);
    EntriesAreGenuine(before, read);
    ScanFindsNewest(Entries(before, read), cutoff);
    var found := Scan(Entries(before, read), cutoff);
    if found.Some? { assert Prefix(found.value.key) == found.value.key; }
  }

  /** What the lookup gives when its index was made from other keys. */
  function MemoGives<R>(d: Daily<R>, before: seq<string>, day: int, lagDays: int, maxAge: Option<int>, read: DateReader): Option<R> {
    RowOf(d, Scan(Entries(before, read), Cutoff(day, lagDays)), Cutoff(day, lagDays), maxAge)
  }

  // ---- when the memo may be used -------------------------------------------------

  /** The key of an entry for its date, unless a later entry has that date. */
  function WithKey(keys: map<int, string>, e: Entry): map<int, string> {
    if e.date in keys then keys else keys[e.date := e.key]
  }

  /** The last key of each date. */
  function LastKeys(entries: seq<Entry>): map<int, string> {
    if entries == [] then map[] else WithKey(LastKeys(entries[1..]), entries[0])
  }

  /** `found` is the newest date of `keys` not after the cutoff, with its key. */
  ghost predicate Selects(keys: map<int, string>, found: Option<Entry>, cutoff: int) {
    match found
    case None => forall date :: date in keys ==> date > cutoff
    case Some(e) =>
      && e.date in keys && keys[e.date] == e.key && e.date <= cutoff
      && forall date :: date in keys && date <= cutoff ==> date <= e.date
  }

  lemma SelectsStep(keys: map<int, string>, found: Option<Entry>, e: Entry, cutoff: int)
    requires Selects(keys, found, cutoff)
    ensures Selects(WithKey(keys, e), Newer(e, found, cutoff), cutoff)
  {
  }

  lemma {:induction false} ScanReadsLastKeys(entries: seq<Entry>, cutoff: int)
    ensures Selects(LastKeys(entries), Scan(entries, cutoff), cutoff)
  {
    if entries != [] {
      ScanReadsLastKeys(entries[1..], cutoff);
      SelectsStep(LastKeys(entries[1..]), Scan(entries[1..], cutoff), entries[0], cutoff);
    }
  }

  lemma SameLastKeysSameScan(a: seq<Entry>, b: seq<Entry>, cutoff: int)
    requires LastKeys(a) == LastKeys(b)
    ensures Scan(a, cutoff) == Scan(b, cutoff)
  {
    hide Scan, LastKeys;
    ScanReadsLastKeys(a, cutoff);
    ScanReadsLastKeys(b, cutoff);
    var x, y := Scan(a, cutoff), Scan(b, cutoff);
    assert x.Some? ==> x.value.date in LastKeys(b);
    assert y.Some? ==> y.value.date in LastKeys(a);
  }

  lemma SameScanSameLastKey(a: seq<Entry>, b: seq<Entry>, date: int)
    requires Scan(a, date) == Scan(b, date) && date in LastKeys(a)
    ensures date in LastKeys(b) && LastKeys(b)[date] == LastKeys(a)[date]
  {
    hide Scan, LastKeys;
    ScanReadsLastKeys(a, date);
    ScanReadsLastKeys(b, date);
  }

  ghost predicate SameSelections(a: seq<Entry>, b: seq<Entry>) {
    forall cutoff :: Scan(a, cutoff) == Scan(b, cutoff)
  }

  /** An index made from other keys gives the same selection at every cutoff exactly when each date has the same last key. */
  lemma SelectsAlikeExactlyWhen(before: seq<string>, now: seq<string>, read: DateReader)
    ensures SameSelections(Entries(before, read), Entries(now, read)) <==> LastKeys(Entries(before, read)) == LastKeys(Entries(now, read))
  {
    hide Scan, LastKeys;
    var a, b := Entries(before, read), Entries(now, read);
    if LastKeys(a) == LastKeys(b) {
      forall cutoff ensures Scan(a, cutoff) == Scan(b, cutoff) {
        SameLastKeysSameScan(a, b, cutoff);
      }
      assert SameSelections(a, b);
    }
    if SameSelections(a, b) {
      forall date | date in LastKeys(a) ensures date in LastKeys(b) && LastKeys(b)[date] == LastKeys(a)[date] {
        assert Scan(a, date) == Scan(b, date);
        SameScanSameLastKey(a, b, date);
      }
      forall date | date in LastKeys(b) ensures date in LastKeys(a) {
        assert Scan(a, date) == Scan(b, date);
        SameScanSameLastKey(b, a, date);
      }
      assert LastKeys(a) == LastKeys(b);
    }
  }

  /** The key selected at a cutoff, if the dict with these keys still has it. */
  function Shown(entries: seq<Entry>, cutoff: int, keys: seq<string>): Option<string> {
    match Scan(entries, cutoff)
    case None => None
    case Some(e) => if e.key in keys then Some(e.key) else None
  }

  /** Whatever rows the dict has under its keys, the lookup gives the same with an index of `before` as with one of its own keys. */
  ghost predicate MemoAgrees<R(!new)>(before: seq<string>, now: seq<string>, read: DateReader) {
    forall rows: map<string, Value<R>>, day: int, lagDays: int, maxAge: Option<int> :: WellFormed(Daily(now, rows)) ==>
      MemoGives(Daily(now, rows), before, day, lagDays, maxAge, read) == Lookup(Daily(now, rows), Some(day), lagDays, maxAge, read)
  }

  /** On every day one of the indexes has a key for, both show the same key. */
  ghost predicate ShowAlike(before: seq<string>, now: seq<string>, read: DateReader) {
    var a, b := Entries(before, read), Entries(now, read);
    forall date :: date in LastKeys(a) || date in LastKeys(b) ==> Shown(a, date, now) == Shown(b, date, now)
  }

  /** Nothing changes between two days that have a key. */
  lemma {:induction false} ScanAtLatestDay(entries: seq<Entry>, cutoff: int, day: int)
    requires day <= cutoff && forall date :: date in LastKeys(entries) && date <= cutoff ==> date <= day
    ensures Scan(entries, cutoff) == Scan(entries, day)
  {
    hide Scan, LastKeys;
    ScanReadsLastKeys(entries, cutoff);
    ScanReadsLastKeys(entries, day);
  }

  lemma ShownAlikeAlways(before: seq<string>, now: seq<string>, read: DateReader, cutoff: int)
    requires ShowAlike(before, now, read)
    ensures Shown(Entries(before, read), cutoff, now) == Shown(Entries(now, read), cutoff, now)
  {
    hide LastKeys, Entries, Scan;
    var a, b := Entries(before, read), Entries(now, read);
    ScanReadsLastKeys(a, cutoff);
    ScanReadsLastKeys(b, cutoff);
    var x, y := Scan(a, cutoff), Scan(b, cutoff);
    if x.Some? || y.Some? {
      var day := if x.None? then y.value.date else if y.None? then x.value.date else Max(x.value.date, y.value.date);
      ScanAtLatestDay(a, cutoff, day);
      ScanAtLatestDay(b, cutoff, day);
      assert day in LastKeys(a) || day in LastKeys(b);
    }
  }

  /** The row given depends on the shown key alone. */
  lemma RowIsOfShown<R>(d: Daily<R>, entries: seq<Entry>, cutoff: int, maxAge: Option<int>, read: DateReader)
    requires WellFormed(d) && Genuine(entries, read)
    ensures var key := Shown(entries, cutoff, d.order);
      RowOf(d, Scan(entries, cutoff), cutoff, maxAge) ==
        if key.Some? && read(key.value).Some? then RowOf(d, Some(Entry(read(key.value).value, key.value)), cutoff, maxAge) else None
  {
    hide Scan;
    ScanFindsNewest(entries, cutoff);
  }

  lemma MemoAgreesWhen<R(!new)>(before: seq<string>, now: seq<string>, read: DateReader)
    requires ShowAlike(before, now, read)
    ensures MemoAgrees<R>(before, now, read)
  {
    hide Shown, ShowAlike, RowOf, Scan, Entries;
    EntriesAreGenuine(before, read);
    EntriesAreGenuine(now, read);
    forall rows: map<string, Value<R>>, day: int, lagDays: int, maxAge: Option<int> | WellFormed(Daily(now, rows))
      ensures MemoGives(Daily(now, rows), before, day, lagDays, maxAge, read) == Lookup(Daily(now, rows), Some(day), lagDays, maxAge, read)
    {
      var cutoff := Cutoff(day, lagDays);
      ShownAlikeAlways(before, now, read, cutoff);
      RowIsOfShown(Daily(now, rows), Entries(before, read), cutoff, maxAge, read);
      RowIsOfShown(Daily(now, rows), Entries(now, read), cutoff, maxAge, read);
    }
  }

  /** A dict whose rows are its keys. */
  function KeysAsRows(order: seq<string>): Daily<string> { Daily(order, map key | key in order :: Row(key)) }

  lemma ShownIsGiven(before: seq<string>, now: seq<string>, read: DateReader, day: int)
    ensures WellFormed(KeysAsRows(now))
    ensures MemoGives(KeysAsRows(now), before, day, 0, None, read) == Shown(Entries(before, read), day, now)
    ensures Lookup(KeysAsRows(now), Some(day), 0, None, read) == Shown(Entries(now, read), day, now)
  {
    hide Scan, Entries;
  }

  /** An index made from other keys gives the same row, at every cutoff and for every dict with the current keys, exactly when
      on every day with a key in either list both show the same key, or none that is still there. */
  lemma MemoAgreesExactlyWhen(before: seq<string>, now: seq<string>, read: DateReader)
    ensures MemoAgrees<string>(before, now, read) <==> ShowAlike(before, now, read)
  {
    hide Shown, MemoGives, Lookup, LastKeys, Entries;
    if ShowAlike(before, now, read) {
      MemoAgreesWhen<string>(before, now, read);
    } else {
      var a, b := Entries(before, read), Entries(now, read);
      var date :| (date in LastKeys(a) || date in LastKeys(b)) && Shown(a, date, now) != Shown(b, date, now);
      ShownIsGiven(before, now, read, date);
      assert KeysAsRows(now) == Daily(now, KeysAsRows(now).rows);
    }
  }

  /** A key replaced by another leaves the length as it was: the scan finds the new row, the memo finds nothing. */
  lemma ReplacedKeyIsMissed()
    ensures var before, d := ["2024-01-04"], Daily(["2024-01-05"], map["2024-01-05" := Row(7)]);
      && |before| == |d.order| && WellFormed(d) && !ShowAlike(before, d.order, TwoDays())
      && MemoGives(d, before, 9, 0, None, TwoDays()) == None && Lookup(d, Some(9), 0, None, TwoDays()) == Some(7)
  {
    var before, d := ["2024-01-04"], Daily(["2024-01-05"], map["2024-01-05" := Row(7)]);
    assert Prefix("2024-01-04") == "2024-01-04" && Prefix("2024-01-05") == "2024-01-05";
    assert before[0] == "2024-01-04" && d.order[0] == "2024-01-05" && before[1..] == [] && d.order[1..] == [];
    var a, b := [Entry(4, "2024-01-04")], [Entry(5, "2024-01-05")];
    assert Entries(before, TwoDays()) == a && Entries(d.order, TwoDays()) == b;
    assert a[1..] == [] && b[1..] == [];
    if ShowAlike(before, d.order, TwoDays()) { ShownAlikeAlways(before, d.order, TwoDays(), 9); }
  }
}

/** `lookup_lagged_daily_dict` with its memoised index and binary search. */
module FeatureLag {
  import opened Common
  import opened Sorting
  import opened FeatureLagSpec
  import opened FeatureLagFacts

  /** The loop over the keys. */
  method DatedEntries(order: seq<string>, read: DateReader) returns (entries: seq<Entry>)
    ensures entries == Entries(order, read)
  {
    hide DateOf, Prefix;
    entries := [];
    for i := 0 to |order|
      invariant entries + Entries(order[i..], read) == Entries(order, read)
    {
      assert order[i..][1..] == order[i + 1..];
      var date := DateOf(order[i], read);
      if date.Some? { entries := entries + [Entry(date.value, Prefix(order[i]))]; }
    }
    assert order[|order|..] == [];
  }

  datatype Cached = Cached(length: nat, index: seq<Entry>)

  /** `bisect_right` on the dates of a sorted index. */
  method BisectRight(index: seq<Entry>, cutoff: int) returns (pos: nat)
    requires InDateOrder(index)
    ensures SplitsAt(index, cutoff, pos)
  {
    var lo, hi := 0, |index|;
    while lo < hi
      invariant 0 <= lo <= hi <= |index|
      invariant forall i :: 0 <= i < lo ==> index[i].date <= cutoff
      invariant forall i :: hi <= i < |index| ==> index[i].date > cutoff
    {
      var mid := (lo + hi) / 2;
      if cutoff < index[mid].date { hi := mid; } else { lo := mid + 1; }
    }
    pos := lo;
  }

  /** The module-level memo. `seen` are the keys each cached index was made from. */
  class KeyCache {
    const read: DateReader
    var cache: map<nat, Cached>
    ghost var seen: map<nat, seq<string>>

    ghost predicate Valid()
      reads this
    {
      cache.Keys == seen.Keys
      && forall id :: id in cache ==> seen[id] != [] && cache[id] == Cached(|seen[id]|, Index(seen[id], read))
    }

    constructor (read: DateReader)
      ensures Valid() && this.read == read && cache == map[]
    {
      this.read, cache, seen := read, map[], map[];
    }

    /** The keys the index of a dict is taken from: those seen before when the length is the same, else its own. */
    ghost function KeysUsed(id: nat, order: seq<string>): seq<string>
      reads this
    {
      if id in seen && |seen[id]| == |order| then seen[id] else order
    }

    /** `_daily_dict_index`. */
    method DailyDictIndex(id: nat, order: seq<string>) returns (index: seq<Entry>)
      requires Valid()
      modifies this
      ensures Valid() && index == Index(old(KeysUsed(id, order)), read)
      ensures KeysUsed(id, order) == old(KeysUsed(id, order))
      ensures forall other :: other != id ==> (other in seen <==> other in old(seen)) && (other in seen ==> seen[other] == old(seen)[other])
    {
      hide Entries, StableSort, EarlierEntry;
      if order == [] {
        IndexOfNothing(order, read);
        return [];
      }
      if id in cache && cache[id].length == |order| { return cache[id].index; }
      var entries := DatedEntries(order, read);
      index := StableSort(entries, EarlierEntry());
      cache := cache[id := Cached(|order|, index)];
      seen := seen[id := order];
    }

    /** `lookup_lagged_daily_dict`: the selection comes from the keys the index was made from, the row from the dict as it
        is now; when the keys did not change behind the memo, that is the plain scan. */
    method LookupLagged<R(!new)>(id: nat, d: Daily<R>, tradeDate: Option<int>, lagDays: int, maxAge: Option<int>) returns (row: Option<R>)
      requires Valid() && WellFormed(d)
      modifies this
      ensures Valid()
      ensures tradeDate.Some? ==>
        row == MemoGives(d, old(KeysUsed(id, d.order)), tradeDate.value, lagDays, maxAge, read)
      ensures old(KeysUsed(id, d.order)) == d.order ==> row == Lookup(d, tradeDate, lagDays, maxAge, read)
      ensures tradeDate.Some? && row.Some? ==> InTime(row.value, d, tradeDate.value, lagDays, maxAge, read)
    {
      if tradeDate.Some? { NeverLooksAhead(d, KeysUsed(id, d.order), tradeDate.value, lagDays, maxAge, read); }
      if tradeDate.None? || d.order == [] {
        return None;
      }
      var cutoff := Cutoff(tradeDate.value, lagDays);
      var index := DailyDictIndex(id, d.order);
      ghost var entries := Entries(old(KeysUsed(id, d.order)), read);
      IndexIsSorted(old(KeysUsed(id, d.order)), read);
      ScanAfterSort(entries, cutoff);
      var pos := BisectRight(index, cutoff);
      ScanOfSorted(index, cutoff, pos);
      if pos == 0 { return None; }
      var selected := index[pos - 1];
      if maxAge.Some? && maxAge.value >= 0 && cutoff - selected.date > maxAge.value { return None; }
      if selected.key !in d.rows { return None; }
      match d.rows[selected.key]
      case Row(r) => return Some(r);
      case NotARow => return None;
    }
  }
}
