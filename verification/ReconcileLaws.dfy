/** What reconciliation settles and what every run of the calendar table keeps. */
module ReconcileLaws {
  import opened Sequences
  import opened Reconcile

  ghost predicate UniqueKeys(rows: seq<Event>) {
    forall i, j :: 0 <= i < j < |rows| ==> KeyOf(rows[i]) != KeyOf(rows[j])
  }

  /** The table's supersession check: all three columns null, or all set and another date named. */
  predicate SupersessionCheck(e: Event) {
    || (e.supersededAt.None? && e.supersededReason.None? && e.supersededBy.None?)
    || (e.supersededAt.Some? && e.supersededReason.Some? && e.supersededBy.Some? && e.supersededBy.value != e.date)
  }

  // ------------------------------------------------------------------ one row through a plan

  function RetireAlong(e: Event, items: seq<Supersession>, now: int): Event {
    if items == [] then e else Retire(items[|items| - 1], now)(RetireAlong(e, items[..|items| - 1], now))
  }

  function RestoreAlong(e: Event, items: seq<Recorded>): Event {
    if items == [] then e else Restore(items[|items| - 1])(RestoreAlong(e, items[..|items| - 1]))
  }

  lemma {:induction false} RetireRows(rows: seq<Event>, items: seq<Supersession>, now: int)
    ensures |RetireAll(rows, items, now)| == |rows|
    ensures forall i :: 0 <= i < |rows| ==> RetireAll(rows, items, now)[i] == RetireAlong(rows[i], items, now)
  {
    if items != [] {
      var n := |items| - 1;
      RetireRows(rows, items[..n], now);
      MapAt(RetireAll(rows, items[..n], now), Retire(items[n], now));
    }
  }

  lemma {:induction false} RestoreRows(rows: seq<Event>, items: seq<Recorded>)
    ensures |RestoreAll(rows, items)| == |rows|
    ensures forall i :: 0 <= i < |rows| ==> RestoreAll(rows, items)[i] == RestoreAlong(rows[i], items)
  {
    if items != [] {
      var n := |items| - 1;
      RestoreRows(rows, items[..n]);
      MapAt(RestoreAll(rows, items[..n]), Restore(items[n]));
    }
  }

  /** Recorded events that could touch a row are the row itself. */
  ghost predicate OnlyItself(e: Event, events: seq<Recorded>) {
    forall r :: r in events && (r.symbol, r.date) == KeyOf(e) ==> r == AsRecorded()(e)
  }

  function RetiredIf(e: Event, canonical: map<Quarter, int>, present: bool, now: int): Event {
    if present && IsMoved(canonical, AsRecorded()(e))
    then Retire(SupersessionOf(canonical)(AsRecorded()(e)), now)(e) else e
  }

  function RestoredIf(e: Event, r: Recorded, canonical: map<Quarter, int>, present: bool): Event {
    if present && IsBack(canonical, r) then Restore(r)(e) else e
  }

  lemma RetireStep(e: Event, r: Recorded, canonical: map<Quarter, int>, present: bool, now: int)
    requires IsMoved(canonical, r) && ((r.symbol, r.date) == KeyOf(e) ==> r == AsRecorded()(e))
    ensures Retire(SupersessionOf(canonical)(r), now)(RetiredIf(e, canonical, present, now)) ==
            RetiredIf(e, canonical, present || r == AsRecorded()(e), now)
  {
  }

  lemma RetireAppend(e: Event, before: seq<Supersession>, item: Supersession, now: int)
    ensures RetireAlong(e, before + [item], now) == Retire(item, now)(RetireAlong(e, before, now))
  {
    assert (before + [item])[..|before|] == before;
  }

  lemma {:induction false} RetireEffect(e: Event, events: seq<Recorded>, canonical: map<Quarter, int>, now: int, n: nat)
    requires n <= |events| && OnlyItself(e, events)
    ensures RetireAlong(e, Map(Filter(events[..n], Moved(canonical)), SupersessionOf(canonical)), now) ==
            RetiredIf(e, canonical, AsRecorded()(e) in events[..n], now)
  {
    if n > 0 {
      var r := events[n - 1];
      RetireEffect(e, events, canonical, now, n - 1);
      NextMoved(events, canonical, n - 1);
      assert events[..n] == events[..n - 1] + [r];
      assert r in events;
      var before := Map(Filter(events[..n - 1], Moved(canonical)), SupersessionOf(canonical));
      if IsMoved(canonical, r) {
        RetireAppend(e, before, SupersessionOf(canonical)(r), now);
        RetireStep(e, r, canonical, AsRecorded()(e) in events[..n - 1], now);
      } else {
        assert before + [] == before;
      }
    }
  }

  lemma {:induction false} RestoreEffect(e: Event, row: Event, events: seq<Recorded>, canonical: map<Quarter, int>,
                                         n: nat)
    requires n <= |events| && OnlyItself(row, events) && KeyOf(e) == KeyOf(row)
    ensures RestoreAlong(e, Filter(events[..n], Back(canonical)))
            == RestoredIf(e, AsRecorded()(row), canonical, AsRecorded()(row) in events[..n])
  {
    if n > 0 {
      var r := events[n - 1];
      RestoreEffect(e, row, events, canonical, n - 1);
      FilterNext(events, Back(canonical), n - 1);
      assert events[..n] == events[..n - 1] + [r];
      assert r in events;
      var before := Filter(events[..n - 1], Back(canonical));
      if IsBack(canonical, r) {
        assert (before + [r])[..|before|] == before;
      } else {
        assert before + [] == before;
      }
    }
  }

  // ------------------------------------------------------------------ the settled table

  /** Where a row stands once the evidence has been applied. */
  function Settled(e: Event, canonical: map<Quarter, int>, now: int): Event {
    var r := AsRecorded()(e);
    if e.hour != Some(AFTER_CLOSE) then e
    else if IsMoved(canonical, r) then Retire(SupersessionOf(canonical)(r), now)(e)
    else if IsBack(canonical, r) then Restore(r)(e)
    else e
  }

  function Reconciled(rows: seq<Event>, evidence: seq<Entry>, now: int): seq<Event> {
    Applied(rows, PlanFor(rows, evidence), now)
  }

  lemma RecordedFrom(rows: seq<Event>, symbols: set<string>, r: Recorded) returns (i: nat)
    requires r in SortBy(RecordedEvents(rows, symbols), RecordedLe)
    ensures && i < |rows|
            && OfSymbols(symbols)(rows[i])
            && AsRecorded()(rows[i]) == r
  {
    var chosen := Filter(rows, OfSymbols(symbols));
    var mapped := Map(chosen, AsRecorded());
    SortContents(mapped, RecordedLe);
    SortContents(SortBy(mapped, RecordedLe), RecordedLe);
    MapAt(chosen, AsRecorded());
    var k :| 0 <= k < |mapped| && mapped[k] == r;
    FilterMembers(rows, OfSymbols(symbols));
    assert chosen[k] in rows;
    i :| 0 <= i < |rows| && rows[i] == chosen[k];
  }

  lemma RecordedHas(rows: seq<Event>, symbols: set<string>, i: nat)
    requires i < |rows| && OfSymbols(symbols)(rows[i])
    ensures AsRecorded()(rows[i]) in SortBy(RecordedEvents(rows, symbols), RecordedLe)
  {
    var chosen := Filter(rows, OfSymbols(symbols));
    var mapped := Map(chosen, AsRecorded());
    SortContents(mapped, RecordedLe);
    SortContents(SortBy(mapped, RecordedLe), RecordedLe);
    MapAt(chosen, AsRecorded());
    FilterMembers(rows, OfSymbols(symbols));
    assert rows[i] in chosen;
    var k :| 0 <= k < |chosen| && chosen[k] == rows[i];
    assert mapped[k] == AsRecorded()(rows[i]);
  }

  lemma RowsOnlyThemselves(rows: seq<Event>, symbols: set<string>, i: nat)
    requires UniqueKeys(rows) && i < |rows|
    ensures OnlyItself(rows[i], SortBy(RecordedEvents(rows, symbols), RecordedLe))
    ensures AsRecorded()(rows[i]) in SortBy(RecordedEvents(rows, symbols), RecordedLe) <==> OfSymbols(symbols)(rows[i])
  {
    var events := SortBy(RecordedEvents(rows, symbols), RecordedLe);
    forall r | r in events && (r.symbol, r.date) == KeyOf(rows[i])
      ensures r == AsRecorded()(rows[i]) && OfSymbols(symbols)(rows[i])
    {
      var j := RecordedFrom(rows, symbols, r);
      assert KeyOf(rows[j]) == KeyOf(rows[i]);
      assert j == i;
    }
    if OfSymbols(symbols)(rows[i]) {
      RecordedHas(rows, symbols, i);
    }
  }

  lemma ListedSymbol(listed: seq<Entry>, r: Recorded)
    requires ListedDate(Canonical(listed), r).Some?
    ensures r.symbol in SymbolsOf(listed)
  {
    var q := (r.symbol, r.year.value, r.quarter.value);
    CanonicalMeaning(listed, q, Canonical(listed)[q]);
    var i :| 0 <= i < |listed| && Names(listed[i], q);
  }

  /** Row by row, a reconciliation settles the whole table. */
  lemma ReconcileSettles(rows: seq<Event>, evidence: seq<Entry>, now: int)
    requires UniqueKeys(rows)
    ensures |Reconciled(rows, evidence, now)| == |rows|
    ensures forall i :: 0 <= i < |rows| ==>
            Reconciled(rows, evidence, now)[i] == Settled(rows[i], Canonical(evidence), now)
  {
    var canonical := Canonical(evidence);
    var plan := PlanFor(rows, evidence);
    RetireRows(rows, plan.supersede, now);
    RestoreRows(RetireAll(rows, plan.supersede, now), plan.reinstate);
    forall i | 0 <= i < |rows| ensures Reconciled(rows, evidence, now)[i] == Settled(rows[i], canonical, now) {
      RowSettles(rows, evidence, now, i);
    }
  }

  lemma RowSettles(rows: seq<Event>, evidence: seq<Entry>, now: int, i: nat)
    requires UniqueKeys(rows) && i < |rows|
    ensures var plan := PlanFor(rows, evidence);
            RestoreAlong(RetireAlong(rows[i], plan.supersede, now), plan.reinstate)
                == Settled(rows[i], Canonical(evidence), now)
  {
    var canonical, symbols := Canonical(evidence), SymbolsOf(evidence);
    var events := SortBy(RecordedEvents(rows, symbols), RecordedLe);
    var row := rows[i];
    RowsOnlyThemselves(rows, symbols, i);
    assert events[..|events|] == events;
    RetireEffect(row, events, canonical, now, |events|);
    var retired := RetiredIf(row, canonical, AsRecorded()(row) in events, now);
    RestoreEffect(retired, row, events, canonical, |events|);
    if ListedDate(canonical, AsRecorded()(row)).Some? {
      ListedSymbol(evidence, AsRecorded()(row));
    }
  }

  /** An after-close row of a canonically listed quarter is live exactly when it carries the
      listed date; every other row is untouched. */
  lemma LiveExactlyOnListedDate(rows: seq<Event>, evidence: seq<Entry>, now: int, i: nat)
    requires UniqueKeys(rows) && i < |rows|
    ensures var listed := ListedDate(Canonical(evidence), AsRecorded()(rows[i]));
            var after := Reconciled(rows, evidence, now);
            && |after| == |rows|
            && (rows[i].hour == Some(AFTER_CLOSE) && listed.Some? ==>
                (after[i].supersededAt.None? <==> rows[i].date == listed.value))
            && (rows[i].hour != Some(AFTER_CLOSE) || listed.None? ==> after[i] == rows[i])
  {
    ReconcileSettles(rows, evidence, now);
  }

  lemma SettledStays(e: Event, canonical: map<Quarter, int>, now: int)
    requires e.hour == Some(AFTER_CLOSE)
    ensures var r := AsRecorded()(Settled(e, canonical, now)); !IsMoved(canonical, r) && !IsBack(canonical, r)
  {
  }

  /** A second plan on the same evidence has nothing to do. */
  lemma SecondPlanEmpty(rows: seq<Event>, evidence: seq<Entry>, now: int)
    requires UniqueKeys(rows)
    ensures PlanFor(Reconciled(rows, evidence, now), evidence) == Plan([], [])
  {
    var canonical, symbols := Canonical(evidence), SymbolsOf(evidence);
    var after := Reconciled(rows, evidence, now);
    var events := SortBy(RecordedEvents(after, symbols), RecordedLe);
    ReconcileSettles(rows, evidence, now);
    forall r | r in events ensures !IsMoved(canonical, r) && !IsBack(canonical, r) {
      var i := RecordedFrom(after, symbols, r);
      SettledStays(rows[i], canonical, now);
    }
    FilterNothing(events, Moved(canonical));
    FilterNothing(events, Back(canonical));
  }

  // ------------------------------------------------------------------ order of the evidence

  lemma CanonicalForgetsOrder(a: seq<Entry>, b: seq<Entry>)
    requires forall x :: x in a <==> x in b
    ensures Canonical(a) == Canonical(b)
  {
    QuartersInclude(a, b);
    QuartersInclude(b, a);
    forall q ensures Dates(a, q) == Dates(b, q) {
      DatesInclude(a, b, q);
      DatesInclude(b, a, q);
    }
  }

  lemma QuartersInclude(a: seq<Entry>, b: seq<Entry>)
    requires forall x :: x in a ==> x in b
    ensures Quarters(a) <= Quarters(b)
  {
    forall q | q in Quarters(a) ensures q in Quarters(b) {
      var i :| 0 <= i < |a| && a[i].year.Some? && a[i].quarter.Some?
          && q == (a[i].symbol, a[i].year.value, a[i].quarter.value);
      assert a[i] in b;
      var j :| 0 <= j < |b| && b[j] == a[i];
      assert q == (b[j].symbol, b[j].year.value, b[j].quarter.value);
    }
  }

  lemma DatesInclude(a: seq<Entry>, b: seq<Entry>, q: Quarter)
    requires forall x :: x in a ==> x in b
    ensures Dates(a, q) <= Dates(b, q)
  {
    forall d | d in Dates(a, q) ensures d in Dates(b, q) {
      var i :| 0 <= i < |a| && Names(a[i], q) && a[i].date == d;
      assert a[i] in b;
      var j :| 0 <= j < |b| && b[j] == a[i];
      assert Names(b[j], q) && b[j].date == d;
    }
  }

  ghost predicate UniqueEvents(events: seq<Recorded>) {
    forall x, y :: x in events && y in events && x.symbol == y.symbol && x.date == y.date ==> x == y
  }

  /** The plan depends on which events and listings there are, not on their order. */
  lemma PlanForgetsOrder(a: seq<Recorded>, b: seq<Recorded>, la: seq<Entry>, lb: seq<Entry>)
    requires multiset(a) == multiset(b) && UniqueEvents(a)
    requires forall x :: x in la <==> x in lb
    ensures PlanOf(a, la) == PlanOf(b, lb)
  {
    CanonicalForgetsOrder(la, lb);
    forall x: Recorded, y: Recorded
      ensures && (RecordedLe(x, y) || RecordedLe(y, x))
              && (RecordedLe(x, y) && RecordedLe(y, x) ==> x.symbol == y.symbol && x.date == y.date)
    {
      TextLeTotal(x.symbol, y.symbol);
    }
    forall x: Recorded, y: Recorded, z: Recorded | RecordedLe(x, y) && RecordedLe(y, z) ensures RecordedLe(x, z) {
      RecordedTransitive(x, y, z);
    }
    SortPermutation(a, b, RecordedLe);
  }

  lemma RecordedTransitive(x: Recorded, y: Recorded, z: Recorded)
    requires RecordedLe(x, y) && RecordedLe(y, z)
    ensures RecordedLe(x, z)
  {
    if x.symbol != y.symbol && y.symbol != z.symbol {
      TextLeTransitive(x.symbol, y.symbol, z.symbol);
      TextLeTotal(x.symbol, y.symbol);
    }
  }

  // ------------------------------------------------------------------ one live event a quarter

  predicate OfQuarter(e: Event, q: Quarter) {
    e.hour == Some(AFTER_CLOSE) && e.symbol == q.0 && e.year == Some(q.1) && e.quarter == Some(q.2)
  }

  ghost predicate LiveAt(rows: seq<Event>, q: Quarter, i: nat) {
    i < |rows| && OfQuarter(rows[i], q) && rows[i].supersededAt.None?
  }

  /** After a reconciliation a canonically listed quarter has at most one live event, and it
      has one exactly when an event is recorded on the listed date: a quarter that moved to
      a date never recorded is left with none. */
  lemma OneLiveExactly(rows: seq<Event>, evidence: seq<Entry>, now: int, q: Quarter)
    requires UniqueKeys(rows) && q in Canonical(evidence)
    ensures var after := Reconciled(rows, evidence, now);
            && (forall i, j :: LiveAt(after, q, i) && LiveAt(after, q, j) ==> i == j)
            && ((exists i :: 0 <= i < |after| && LiveAt(after, q, i)) <==>
                (exists i :: 0 <= i < |rows| && OfQuarter(rows[i], q) && rows[i].date == Canonical(evidence)[q]))
  {
    var after, d := Reconciled(rows, evidence, now), Canonical(evidence)[q];
    ReconcileSettles(rows, evidence, now);
    forall i | 0 <= i < |rows| ensures LiveAt(after, q, i) <==> OfQuarter(rows[i], q) && rows[i].date == d {
      LiveExactlyOnListedDate(rows, evidence, now, i);
    }
  }

  function Listing(date: int): Entry {
    Entry("AAA", date, Some(AFTER_CLOSE), None, None, None, None, Some(1), Some(2024))
  }

  function LiveRow(date: int): Event {
    Event("AAA", date, Some(AFTER_CLOSE), None, None, None, None, Some(1), Some(2024), None, None, None)
  }

  /** One live event, and listings that moved its quarter to a date never recorded: the
      reconciliation leaves the quarter without a live event. */
  lemma QuarterLeftWithout() returns (rows: seq<Event>, evidence: seq<Entry>, q: Quarter)
    ensures UniqueKeys(rows) && q in Canonical(evidence) && LiveAt(rows, q, 0)
    ensures forall now :: !exists i :: LiveAt(Reconciled(rows, evidence, now), q, i)
  {
    rows, evidence, q := [LiveRow(10)], [Listing(20)], ("AAA", 2024, 1);
    assert Names(evidence[0], q);
    CanonicalMeaning(evidence, q, 20);
    forall now ensures !exists i :: LiveAt(Reconciled(rows, evidence, now), q, i) {
      OneLiveExactly(rows, evidence, now, q);
    }
  }

  // ------------------------------------------------------------------ positive evidence only

  /** A live row is superseded only because the evidence names its quarter on another date,
      and names it on no second one. */
  lemma SupersededOnEvidence(rows: seq<Event>, evidence: seq<Entry>, now: int, i: nat)
    requires UniqueKeys(rows) && i < |rows| && rows[i].supersededAt.None?
    requires |Reconciled(rows, evidence, now)| == |rows| && Reconciled(rows, evidence, now)[i].supersededAt.Some?
    ensures var named := Reconciled(rows, evidence, now)[i].supersededBy;
            && rows[i].year.Some? && rows[i].quarter.Some?
            && var q := (rows[i].symbol, rows[i].year.value, rows[i].quarter.value);
               && named.Some? && named.value != rows[i].date
               && (exists k :: 0 <= k < |evidence| && Names(evidence[k], q) && evidence[k].date == named.value)
               && (forall k :: 0 <= k < |evidence| && Names(evidence[k], q) ==> evidence[k].date == named.value)
  {
    ReconcileSettles(rows, evidence, now);
    var q := (rows[i].symbol, rows[i].year.value, rows[i].quarter.value);
    CanonicalMeaning(evidence, q, Canonical(evidence)[q]);
  }

  /** A look-up that failed contributes no evidence: what is found was answered, for that symbol. */
  lemma {:induction false} FoundWasAnswered(events: seq<Recorded>, symbols: seq<string>, lookup: Lookup, x: Entry)
    requires x in ListingsOfAll(events, symbols, lookup)
    ensures x.symbol in symbols && Answered(lookup, x)
  {
    var n := |symbols| - 1;
    if x in ListingsOfAll(events, symbols[..n], lookup) {
      FoundWasAnswered(events, symbols[..n], lookup, x);
    } else {
      assert x in ListingsOf(events, symbols[n], lookup);
      var from := FirstDate(events, symbols[n]).value - LOOKUP_RADIUS_DAYS;
      var until := LastDate(events, symbols[n]).value + LOOKUP_RADIUS_DAYS;
      FilterMembers(lookup(symbols[n], from, until).value, OfSymbol(symbols[n]));
      assert AnsweredFor(lookup, x, from, until);
    }
  }

  ghost predicate AnsweredFor(lookup: Lookup, x: Entry, from: int, until: int) {
    lookup(x.symbol, from, until).Some? && x in lookup(x.symbol, from, until).value
  }

  ghost predicate Answered(lookup: Lookup, x: Entry) {
    exists from, until :: AnsweredFor(lookup, x, from, until)
  }

  // ------------------------------------------------------------------ every run

  datatype Operation =
    | Archive(matched: seq<Entry>, listed: seq<Entry>, from: int, until: int, lookup: Lookup, now: int)
    | Backlog(evidence: seq<Entry>, now: int)

  function After(rows: seq<Event>, op: Operation): seq<Event> {
    match op
    case Archive(matched, listed, from, until, lookup, now) =>
      var upserted := UpsertedAll(rows, matched);
      Reconciled(upserted, Evidence(upserted, listed, from, until, lookup), now)
    case Backlog(evidence, now) => Reconciled(rows, evidence, now)
  }

  function TableAfter(ops: seq<Operation>): seq<Event> {
    if ops == [] then [] else After(TableAfter(ops[..|ops| - 1]), ops[|ops| - 1])
  }

  ghost predicate KeptValue<T>(before: Option<T>, after: Option<T>) {
    before.Some? ==> after == before
  }

  /** What a row never loses: its key, its hour, estimates and fiscal quarter once set, and
      having an actual at all. */
  ghost predicate Grew(a: Event, b: Event) {
    && KeyOf(a) == KeyOf(b) && a.hour == b.hour
    && KeptValue(a.epsEstimate, b.epsEstimate) && KeptValue(a.revenueEstimate, b.revenueEstimate)
    && KeptValue(a.quarter, b.quarter) && KeptValue(a.year, b.year)
    && (a.epsActual.Some? ==> b.epsActual.Some?) && (a.revenueActual.Some? ==> b.revenueActual.Some?)
  }

  ghost predicate Extends(before: seq<Event>, after: seq<Event>) {
    |before| <= |after| && forall i :: 0 <= i < |before| ==> Grew(before[i], after[i])
  }

  ghost predicate Healthy(rows: seq<Event>) {
    UniqueKeys(rows) && forall i :: 0 <= i < |rows| ==> SupersessionCheck(rows[i])
  }

  lemma ExtendsTransitive(a: seq<Event>, b: seq<Event>, c: seq<Event>)
    requires Extends(a, b) && Extends(b, c)
    ensures Extends(a, c)
  {
    forall i | 0 <= i < |a| ensures Grew(a[i], c[i]) {
      assert Grew(a[i], b[i]) && Grew(b[i], c[i]);
    }
  }

  lemma UpsertKeeps(rows: seq<Event>, entry: Entry)
    requires Healthy(rows)
    ensures && Healthy(Upserted(rows, entry))
            && Extends(rows, Upserted(rows, entry))
  {
    if HasRow(rows, (entry.symbol, entry.date)) {
      MapAt(rows, Refresh(entry));
    }
  }

  lemma {:induction false} UpsertAllKeeps(rows: seq<Event>, entries: seq<Entry>)
    requires Healthy(rows)
    ensures && Healthy(UpsertedAll(rows, entries))
            && Extends(rows, UpsertedAll(rows, entries))
  {
    if entries != [] {
      var n := |entries| - 1;
      UpsertAllKeeps(rows, entries[..n]);
      UpsertKeeps(UpsertedAll(rows, entries[..n]), entries[n]);
      ExtendsTransitive(rows, UpsertedAll(rows, entries[..n]), UpsertedAll(rows, entries));
    }
  }

  lemma SettledGrows(e: Event, canonical: map<Quarter, int>, now: int)
    requires SupersessionCheck(e)
    ensures && Grew(e, Settled(e, canonical, now))
            && SupersessionCheck(Settled(e, canonical, now))
  {
  }

  lemma ReconcileKeeps(rows: seq<Event>, evidence: seq<Entry>, now: int)
    requires Healthy(rows)
    ensures && Healthy(Reconciled(rows, evidence, now))
            && Extends(rows, Reconciled(rows, evidence, now))
  {
    ReconcileSettles(rows, evidence, now);
    var after := Reconciled(rows, evidence, now);
    forall i | 0 <= i < |rows| ensures Grew(rows[i], after[i]) && SupersessionCheck(after[i]) {
      SettledGrows(rows[i], Canonical(evidence), now);
    }
  }

  lemma OperationKeeps(rows: seq<Event>, op: Operation)
    requires Healthy(rows)
    ensures Healthy(After(rows, op)) && Extends(rows, After(rows, op))
  {
    match op
    case Archive(matched, listed, from, until, lookup, now) =>
      var upserted := UpsertedAll(rows, matched);
      UpsertAllKeeps(rows, matched);
      ReconcileKeeps(upserted, Evidence(upserted, listed, from, until, lookup), now);
      ExtendsTransitive(rows, upserted, After(rows, op));
    case Backlog(evidence, now) =>
      ReconcileKeeps(rows, evidence, now);
  }

  lemma {:induction false} RunsHealthy(ops: seq<Operation>)
    ensures Healthy(TableAfter(ops))
  {
    if ops != [] {
      var front := ops[..|ops| - 1];
      RunsHealthy(front);
      OperationKeeps(TableAfter(front), ops[|ops| - 1]);
    }
  }

  /** Over any sequence of archive runs and backlog reconciliations no row disappears and what
      is set stays set; keys stay unique and the supersession check holds throughout. */
  lemma {:induction false} RunsKeep(ops: seq<Operation>, k: nat)
    requires k <= |ops|
    ensures Healthy(TableAfter(ops))
    ensures Extends(TableAfter(ops[..k]), TableAfter(ops))
  {
    RunsHealthy(ops);
    if k == |ops| {
      assert ops[..k] == ops;
    } else {
      var front, last := ops[..|ops| - 1], ops[|ops| - 1];
      RunsKeep(front, k);
      assert front[..k] == ops[..k];
      var table := TableAfter(front);
      OperationKeeps(table, last);
      ExtendsTransitive(TableAfter(ops[..k]), table, After(table, last));
    }
  }
}
