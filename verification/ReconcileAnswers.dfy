/** What upserts and reconciliations leave in the calendar table, field by field, and the
    evidence that a reconciliation gathers. */
module ReconcileAnswers {
  import opened Sequences
  import opened Reconcile
  import opened ReconcileLaws

  // ------------------------------------------------------------------ rows by key

  /** The row of a key; a table has at most one. */
  function RowAt(rows: seq<Event>, key: RowKey): (r: Option<Event>)
    ensures r.Some? ==> r.value in rows && (r.value.symbol, r.value.date) == key
    ensures r.None? ==> forall e :: e in rows ==> (e.symbol, e.date) != key
  {
    if rows == [] then None
    else if (rows[0].symbol, rows[0].date) == key then Some(rows[0])
    else RowAt(rows[1..], key)
  }

  predicate Live(e: Event) {
    e.supersededAt.None? && e.supersededReason.None? && e.supersededBy.None?
  }

  /** A new row holds everything its entry says, and is live. */
  predicate TakenNew(entry: Entry, e: Event) {
    && (e.symbol, e.date, e.hour) == (entry.symbol, entry.date, entry.hour)
    && (e.epsEstimate, e.epsActual) == (entry.epsEstimate, entry.epsActual)
    && (e.revenueEstimate, e.revenueActual) == (entry.revenueEstimate, entry.revenueActual)
    && (e.quarter, e.year) == (entry.quarter, entry.year)
    && Live(e)
  }

  /** Actuals follow the entry wherever it has them; the rest follows the row wherever it was
      set; hour and supersession are the row's own. */
  predicate TakenOver(before: Event, entry: Entry, e: Event) {
    && (e.symbol, e.date, e.hour) == (before.symbol, before.date, before.hour)
    && e.epsActual == (if entry.epsActual.Some? then entry.epsActual else before.epsActual)
    && e.revenueActual == (if entry.revenueActual.Some? then entry.revenueActual else before.revenueActual)
    && e.epsEstimate == (if before.epsEstimate.Some? then before.epsEstimate else entry.epsEstimate)
    && e.revenueEstimate == (if before.revenueEstimate.Some? then before.revenueEstimate else entry.revenueEstimate)
    && e.quarter == (if before.quarter.Some? then before.quarter else entry.quarter)
    && e.year == (if before.year.Some? then before.year else entry.year)
    && (e.supersededAt, e.supersededReason, e.supersededBy)
       == (before.supersededAt, before.supersededReason, before.supersededBy)
  }

  predicate Taken(before: Option<Event>, entry: Entry, after: Option<Event>) {
    after.Some? && if before.None? then TakenNew(entry, after.value) else TakenOver(before.value, entry, after.value)
  }

  lemma {:induction false} RefreshedAt(rows: seq<Event>, entry: Entry, key: RowKey)
    ensures (entry.symbol, entry.date) != key ==> RowAt(Map(rows, Refresh(entry)), key) == RowAt(rows, key)
    ensures (entry.symbol, entry.date) == key && RowAt(rows, key).Some? ==>
              Taken(RowAt(rows, key), entry, RowAt(Map(rows, Refresh(entry)), key))
  {
    if rows != [] {
      RefreshedAt(rows[1..], entry, key);
      assert Map(rows, Refresh(entry))[1..] == Map(rows[1..], Refresh(entry));
    }
  }

  lemma {:induction false} AppendedAt(rows: seq<Event>, e: Event, key: RowKey)
    ensures RowAt(rows + [e], key)
            == if RowAt(rows, key).Some? then RowAt(rows, key)
               else if (e.symbol, e.date) == key then Some(e) else None
  {
    if rows != [] {
      AppendedAt(rows[1..], e, key);
      assert (rows + [e])[1..] == rows[1..] + [e];
    }
  }

  lemma HasRowMeaning(rows: seq<Event>, key: RowKey)
    ensures HasRow(rows, key) <==> RowAt(rows, key).Some?
  {
    var found := RowAt(rows, key);
    forall i | 0 <= i < |rows| ensures rows[i] in rows {
    }
    if found.Some? {
      var i :| 0 <= i < |rows| && rows[i] == found.value;
      assert KeyOf(rows[i]) == key;
    }
  }

  /** After one upsert the entry's row has taken the entry, and every other key keeps its row. */
  lemma UpsertTakes(rows: seq<Event>, entry: Entry, key: RowKey)
    ensures var (before, after) := (RowAt(rows, key), RowAt(Upserted(rows, entry), key));
            if key == (entry.symbol, entry.date) then Taken(before, entry, after) else after == before
  {
    HasRowMeaning(rows, (entry.symbol, entry.date));
    RefreshedAt(rows, entry, key);
    AppendedAt(rows, NewEvent(entry), key);
  }

  // ------------------------------------------------------------------ batches

  predicate ForKey(entry: Entry, key: RowKey) {
    (entry.symbol, entry.date) == key
  }

  /** The last value that the entries of a key give a field. */
  function LastGiven<T>(entries: seq<Entry>, key: RowKey, field: Entry -> Option<T>): Option<T> {
    if entries == [] then None
    else
      var last := entries[|entries| - 1];
      if ForKey(last, key) && field(last).Some? then field(last) else LastGiven(entries[..|entries| - 1], key, field)
  }

  /** The first value that they give it. */
  function FirstGiven<T>(entries: seq<Entry>, key: RowKey, field: Entry -> Option<T>): Option<T> {
    if entries == [] then None
    else
      var (earlier, last) := (FirstGiven(entries[..|entries| - 1], key, field), entries[|entries| - 1]);
      if earlier.None? && ForKey(last, key) then field(last) else earlier
  }

  /** The first entry of a key. */
  function FirstFor(entries: seq<Entry>, key: RowKey): Option<Entry> {
    if entries == [] then None
    else
      var (earlier, last) := (FirstFor(entries[..|entries| - 1], key), entries[|entries| - 1]);
      if earlier.None? && ForKey(last, key) then Some(last) else earlier
  }

  function EpsActual(): Entry -> Option<real> {
    (entry: Entry) => entry.epsActual
  }

  function RevenueActual(): Entry -> Option<real> {
    (entry: Entry) => entry.revenueActual
  }

  function EpsEstimate(): Entry -> Option<real> {
    (entry: Entry) => entry.epsEstimate
  }

  function RevenueEstimate(): Entry -> Option<real> {
    (entry: Entry) => entry.revenueEstimate
  }

  function QuarterOf(): Entry -> Option<int> {
    (entry: Entry) => entry.quarter
  }

  function YearOf(): Entry -> Option<int> {
    (entry: Entry) => entry.year
  }

  /** A field of the row before the batch; none when there was no row. */
  function Former<T>(before: Option<Event>, field: Event -> Option<T>): Option<T> {
    if before.None? then None else field(before.value)
  }

  /** The last value given wins over the former one. */
  predicate LastWins<T(==)>(x: Option<T>, former: Option<T>, given: Option<T>) {
    x == if given.Some? then given else former
  }

  /** The former value wins over the first one given. */
  predicate FormerWins<T(==)>(x: Option<T>, former: Option<T>, given: Option<T>) {
    x == if former.Some? then former else given
  }

  /** The row of a key after a batch, field by field. */
  ghost predicate BatchTaken(before: Option<Event>, entries: seq<Entry>, key: RowKey, after: Option<Event>) {
    && (after.Some? <==> before.Some? || FirstFor(entries, key).Some?)
    && (after.Some? ==>
          var e := after.value;
          && (e.symbol, e.date) == key
          && LastWins(e.epsActual, Former(before, (r: Event) => r.epsActual), LastGiven(entries, key, EpsActual()))
          && LastWins(e.revenueActual, Former(before, (r: Event) => r.revenueActual),
                      LastGiven(entries, key, RevenueActual()))
          && FormerWins(e.epsEstimate, Former(before, (r: Event) => r.epsEstimate),
                        FirstGiven(entries, key, EpsEstimate()))
          && FormerWins(e.revenueEstimate, Former(before, (r: Event) => r.revenueEstimate),
                        FirstGiven(entries, key, RevenueEstimate()))
          && FormerWins(e.quarter, Former(before, (r: Event) => r.quarter), FirstGiven(entries, key, QuarterOf()))
          && FormerWins(e.year, Former(before, (r: Event) => r.year), FirstGiven(entries, key, YearOf()))
          && e.hour == (if before.Some? then before.value.hour else FirstFor(entries, key).value.hour)
          && (if before.Some? then e.supersededAt == before.value.supersededAt else Live(e)))
  }

  lemma NothingGiven(entries: seq<Entry>, key: RowKey)
    requires FirstFor(entries, key).None?
    ensures LastGiven(entries, key, EpsActual()).None? && LastGiven(entries, key, RevenueActual()).None?
    ensures FirstGiven(entries, key, EpsEstimate()).None? && FirstGiven(entries, key, RevenueEstimate()).None?
    ensures FirstGiven(entries, key, QuarterOf()).None? && FirstGiven(entries, key, YearOf()).None?
  {
    NoneGiven(entries, key, EpsActual());
    NoneGiven(entries, key, RevenueActual());
    NoneGiven(entries, key, EpsEstimate());
    NoneGiven(entries, key, RevenueEstimate());
    NoneGiven(entries, key, QuarterOf());
    NoneGiven(entries, key, YearOf());
  }

  lemma {:induction false} NoneGiven<T>(entries: seq<Entry>, key: RowKey, field: Entry -> Option<T>)
    requires FirstFor(entries, key).None?
    ensures LastGiven(entries, key, field).None? && FirstGiven(entries, key, field).None?
  {
    if entries != [] {
      NoneGiven(entries[..|entries| - 1], key, field);
    }
  }

  lemma BatchStep(before: Option<Event>, entries: seq<Entry>, key: RowKey, middle: Option<Event>, after: Option<Event>)
    requires entries != [] && BatchTaken(before, entries[..|entries| - 1], key, middle)
    requires var last := entries[|entries| - 1];
             if ForKey(last, key) then Taken(middle, last, after) else after == middle
    ensures BatchTaken(before, entries, key, after)
  {
    if middle.None? {
      NothingGiven(entries[..|entries| - 1], key);
    }
  }

  /** A whole batch, by key: the last actuals given win, what was set stays set, the first value
      fills a gap, and a key without entries keeps its row. */
  lemma {:induction false} BatchTakes(rows: seq<Event>, entries: seq<Entry>, key: RowKey)
    ensures BatchTaken(RowAt(rows, key), entries, key, RowAt(UpsertedAll(rows, entries), key))
    ensures FirstFor(entries, key).None? ==> RowAt(UpsertedAll(rows, entries), key) == RowAt(rows, key)
  {
    if entries != [] {
      var front, last := entries[..|entries| - 1], entries[|entries| - 1];
      BatchTakes(rows, front, key);
      var middle := UpsertedAll(rows, front);
      UpsertTakes(middle, last, key);
      BatchStep(RowAt(rows, key), entries, key, RowAt(middle, key), RowAt(Upserted(middle, last), key));
    }
  }

  // ------------------------------------------------------------------ reconciled rows

  /** The evidence lists the row's quarter, on this date only. */
  ghost predicate ListedOn(evidence: seq<Entry>, e: Event, d: int) {
    && (exists i :: 0 <= i < |evidence| && SameQuarter(evidence[i], e))
    && (forall i :: 0 <= i < |evidence| && SameQuarter(evidence[i], e) ==> evidence[i].date == d)
  }

  predicate SameQuarter(entry: Entry, e: Event) {
    entry.symbol == e.symbol && e.year.Some? && e.quarter.Some? && entry.year == e.year && entry.quarter == e.quarter
  }

  /** What happens to a row whose quarter is listed on `d`. */
  predicate Follows(before: Event, d: int, now: int, after: Event) {
    if before.date == d then
      if before.supersededAt.None? then after == before
      else after == before.(supersededAt := None, supersededReason := None, supersededBy := None)
    else
      if before.supersededAt.Some? then after == before
      else
        && before.year.Some? && before.quarter.Some?
        && after == before.(supersededAt := Some(now), supersededBy := Some(d),
                            supersededReason := Some(Reason(before.year.value, before.quarter.value, d)))
  }

  lemma ListedMeaning(evidence: seq<Entry>, e: Event, d: int)
    ensures ListedDate(Canonical(evidence), AsRecorded()(e)) == Some(d) <==> ListedOn(evidence, e, d)
  {
    if e.year.Some? && e.quarter.Some? {
      var q := (e.symbol, e.year.value, e.quarter.value);
      forall i | 0 <= i < |evidence| ensures Names(evidence[i], q) <==> SameQuarter(evidence[i], e) {
      }
      CanonicalMeaning(evidence, q, d);
    }
  }

  /** A reconciliation changes a row only when it is an after-close event whose quarter is listed
      on one date: it is retired from any other date, and reinstated on that one. */
  lemma ReconciledRow(rows: seq<Event>, evidence: seq<Entry>, now: int, i: nat)
    requires UniqueKeys(rows) && i < |rows|
    ensures |Reconciled(rows, evidence, now)| == |rows|
    ensures var after := Reconciled(rows, evidence, now)[i];
            && (forall d :: rows[i].hour == Some("amc") && ListedOn(evidence, rows[i], d) ==>
                  Follows(rows[i], d, now, after))
            && (rows[i].hour != Some("amc") || (forall d :: !ListedOn(evidence, rows[i], d)) ==> after == rows[i])
  {
    ReconcileSettles(rows, evidence, now);
    var listed := ListedDate(Canonical(evidence), AsRecorded()(rows[i]));
    forall d ensures listed == Some(d) <==> ListedOn(evidence, rows[i], d) {
      ListedMeaning(evidence, rows[i], d);
    }
    SettledFollows(rows[i], Canonical(evidence), now);
    if listed.Some? {
      assert ListedOn(evidence, rows[i], listed.value);
    }
  }

  lemma SettledFollows(e: Event, canonical: map<Quarter, int>, now: int)
    ensures var listed := ListedDate(canonical, AsRecorded()(e));
            if e.hour == Some("amc") && listed.Some? then Follows(e, listed.value, now, Settled(e, canonical, now))
            else Settled(e, canonical, now) == e
  {
  }

  // ------------------------------------------------------------------ the evidence gathered

  /** A live after-close event of the window that no listing carries. */
  ghost predicate Unlisted(rows: seq<Event>, listed: seq<Entry>, from: int, until: int, e: Event) {
    && e in rows && e.hour == Some("amc") && e.supersededAt.None? && from <= e.date <= until
    && forall x :: x in listed ==> (x.symbol, x.date) != (e.symbol, e.date)
  }

  ghost function UnlistedBy(rows: seq<Event>, listed: seq<Entry>, from: int, until: int): Event -> bool {
    (e: Event) => Unlisted(rows, listed, from, until, e)
  }

  /** A symbol has such an event on a date. */
  ghost predicate HasDate(unlisted: Event -> bool, symbol: string, date: int) {
    exists e :: unlisted(e) && e.symbol == symbol && e.date == date
  }

  /** The first and the last date of a symbol's events. */
  ghost predicate Span(unlisted: Event -> bool, symbol: string, first: int, last: int) {
    && HasDate(unlisted, symbol, first) && HasDate(unlisted, symbol, last)
    && forall date :: HasDate(unlisted, symbol, date) ==> first <= date <= last
  }

  /** A look-up 75 days around a symbol's unlisted events answered with this entry of its own. */
  ghost predicate LookedUp(rows: seq<Event>, listed: seq<Entry>, from: int, until: int, lookup: Lookup, x: Entry) {
    exists first, last :: Span(UnlistedBy(rows, listed, from, until), x.symbol, first, last)
      && lookup(x.symbol, first - 75, last + 75).Some? && x in lookup(x.symbol, first - 75, last + 75).value
  }

  lemma UnlistedMeaning(rows: seq<Event>, listed: seq<Entry>, from: int, until: int) returns (events: seq<Recorded>)
    ensures events == Filter(LiveEvents(rows, from, until), NotListed(ListedKeys(listed)))
    ensures forall r :: r in events ==> exists e :: Unlisted(rows, listed, from, until, e) && AsRecorded()(e) == r
    ensures forall e :: Unlisted(rows, listed, from, until, e) ==> AsRecorded()(e) in events
  {
    var live := Filter(rows, LiveBetween(from, until));
    var mapped := Map(live, AsRecorded());
    events := Filter(LiveEvents(rows, from, until), NotListed(ListedKeys(listed)));
    FilterMembers(rows, LiveBetween(from, until));
    MapAt(live, AsRecorded());
    SortContents(mapped, RecordedLe);
    FilterMembers(LiveEvents(rows, from, until), NotListed(ListedKeys(listed)));
    KeysListed(listed);
    forall r | r in events ensures exists e :: Unlisted(rows, listed, from, until, e) && AsRecorded()(e) == r {
      assert r in mapped && NotListed(ListedKeys(listed))(r);
      var k :| 0 <= k < |mapped| && mapped[k] == r;
      assert live[k] in live && LiveBetween(from, until)(live[k]);
      assert Unlisted(rows, listed, from, until, live[k]);
    }
    forall e | Unlisted(rows, listed, from, until, e) ensures AsRecorded()(e) in events {
      assert LiveBetween(from, until)(e) && e in live;
      var k :| 0 <= k < |live| && live[k] == e;
      assert mapped[k] == AsRecorded()(e) && mapped[k] in mapped;
      assert NotListed(ListedKeys(listed))(mapped[k]);
    }
  }

  lemma KeysListed(listed: seq<Entry>)
    ensures forall key :: key in ListedKeys(listed) <==> exists x :: x in listed && (x.symbol, x.date) == key
  {
    forall key ensures key in ListedKeys(listed) <==> exists x :: x in listed && (x.symbol, x.date) == key {
      if x :| x in listed && (x.symbol, x.date) == key {
        var i :| 0 <= i < |listed| && listed[i] == x;
      }
    }
  }

  lemma {:induction false} SpanDates(events: seq<Recorded>, symbol: string)
    ensures FirstDate(events, symbol).Some? == LastDate(events, symbol).Some?
    ensures FirstDate(events, symbol).Some? <==> exists r :: r in events && r.symbol == symbol
    ensures FirstDate(events, symbol).Some? ==>
      && (exists r :: r in events && r.symbol == symbol && r.date == FirstDate(events, symbol).value)
      && (exists r :: r in events && r.symbol == symbol && r.date == LastDate(events, symbol).value)
    ensures forall r :: r in events && r.symbol == symbol ==>
              FirstDate(events, symbol).Some? && LastDate(events, symbol).Some?
              && FirstDate(events, symbol).value <= r.date <= LastDate(events, symbol).value
  {
    if events != [] {
      var front, last := events[..|events| - 1], events[|events| - 1];
      SpanDates(front, symbol);
      assert events == front + [last];
      assert forall r :: r in events <==> r in front || r == last;
    }
  }

  ghost predicate RecordedOn(events: seq<Recorded>, symbol: string, date: int) {
    exists r :: r in events && r.symbol == symbol && r.date == date
  }

  lemma DatesAgree(unlisted: Event -> bool, events: seq<Recorded>, symbol: string, date: int)
    requires forall r :: r in events ==> exists e :: unlisted(e) && AsRecorded()(e) == r
    requires forall e :: unlisted(e) ==> AsRecorded()(e) in events
    ensures HasDate(unlisted, symbol, date) <==> RecordedOn(events, symbol, date)
  {
    if RecordedOn(events, symbol, date) {
      var r :| r in events && r.symbol == symbol && r.date == date;
      var e :| unlisted(e) && AsRecorded()(e) == r;
    }
    if HasDate(unlisted, symbol, date) {
      var e :| unlisted(e) && e.symbol == symbol && e.date == date;
      assert AsRecorded()(e) in events;
    }
  }

  lemma EndsOfDates(events: seq<Recorded>, symbol: string)
    ensures FirstDate(events, symbol).Some? <==> exists date :: RecordedOn(events, symbol, date)
    ensures FirstDate(events, symbol).Some? ==>
      && LastDate(events, symbol).Some?
      && RecordedOn(events, symbol, FirstDate(events, symbol).value)
      && RecordedOn(events, symbol, LastDate(events, symbol).value)
      && forall date :: RecordedOn(events, symbol, date) ==>
           FirstDate(events, symbol).value <= date <= LastDate(events, symbol).value
  {
    SpanDates(events, symbol);
    if r :| r in events && r.symbol == symbol {
      assert RecordedOn(events, symbol, r.date);
    }
  }

  lemma SpanMeaning(unlisted: Event -> bool, events: seq<Recorded>, symbol: string, first: int, last: int)
    requires forall r :: r in events ==> exists e :: unlisted(e) && AsRecorded()(e) == r
    requires forall e :: unlisted(e) ==> AsRecorded()(e) in events
    ensures Span(unlisted, symbol, first, last)
            <==> FirstDate(events, symbol) == Some(first) && LastDate(events, symbol) == Some(last)
  {
    EndsOfDates(events, symbol);
    forall date ensures HasDate(unlisted, symbol, date) <==> RecordedOn(events, symbol, date) {
      DatesAgree(unlisted, events, symbol, date);
    }
  }

  lemma {:induction false} ListingsHave(events: seq<Recorded>, symbols: seq<string>, lookup: Lookup, x: Entry)
    ensures x in ListingsOfAll(events, symbols, lookup)
            <==> x.symbol in symbols && x in ListingsOf(events, x.symbol, lookup)
  {
    if symbols != [] {
      var front, last := symbols[..|symbols| - 1], symbols[|symbols| - 1];
      ListingsHave(events, front, lookup, x);
      OwnListings(events, last, lookup, x);
      assert symbols == front + [last];
    }
  }

  lemma OwnListings(events: seq<Recorded>, symbol: string, lookup: Lookup, x: Entry)
    ensures x in ListingsOf(events, symbol, lookup) <==>
      && x.symbol == symbol && FirstDate(events, symbol).Some? && LastDate(events, symbol).Some?
      && lookup(symbol, FirstDate(events, symbol).value - 75, LastDate(events, symbol).value + 75).Some?
      && x in lookup(symbol, FirstDate(events, symbol).value - 75, LastDate(events, symbol).value + 75).value
  {
    var first, last := FirstDate(events, symbol), LastDate(events, symbol);
    if first.Some? && last.Some? && lookup(symbol, first.value - 75, last.value + 75).Some? {
      FilterMembers(lookup(symbol, first.value - 75, last.value + 75).value, OfSymbol(symbol));
    }
  }

  lemma NamedSymbols(events: seq<Recorded>, symbol: string)
    ensures symbol in SortedSet(Map(events, SymbolName())) <==> exists r :: r in events && r.symbol == symbol
  {
    SortedSetContents(Map(events, SymbolName()));
    MapAt(events, SymbolName());
    if symbol in Map(events, SymbolName()) {
      var k :| 0 <= k < |events| && Map(events, SymbolName())[k] == symbol;
      assert events[k] in events;
    }
    if r :| r in events && r.symbol == symbol {
      var k :| 0 <= k < |events| && events[k] == r;
      assert Map(events, SymbolName())[k] == symbol;
    }
  }

  lemma FoundExactly(events: seq<Recorded>, lookup: Lookup, x: Entry)
    ensures x in Listings(events, lookup) <==>
      && FirstDate(events, x.symbol).Some? && LastDate(events, x.symbol).Some?
      && lookup(x.symbol, FirstDate(events, x.symbol).value - 75, LastDate(events, x.symbol).value + 75).Some?
      && x in lookup(x.symbol, FirstDate(events, x.symbol).value - 75, LastDate(events, x.symbol).value + 75).value
  {
    ListingsHave(events, SortedSet(Map(events, SymbolName())), lookup, x);
    OwnListings(events, x.symbol, lookup, x);
    NamedSymbols(events, x.symbol);
    SpanDates(events, x.symbol);
  }

  /** The evidence is what was listed, and what the look-ups of the unlisted events' symbols
      answered about those symbols. */
  lemma EvidenceExactly(rows: seq<Event>, listed: seq<Entry>, from: int, until: int, lookup: Lookup, x: Entry)
    ensures x in Evidence(rows, listed, from, until, lookup)
            <==> x in listed || LookedUp(rows, listed, from, until, lookup, x)
  {
    var events := UnlistedMeaning(rows, listed, from, until);
    FoundExactly(events, lookup, x);
    FoundIsLookedUp(UnlistedBy(rows, listed, from, until), events, lookup, x);
  }

  lemma FoundIsLookedUp(unlisted: Event -> bool, events: seq<Recorded>, lookup: Lookup, x: Entry)
    requires forall r :: r in events ==> exists e :: unlisted(e) && AsRecorded()(e) == r
    requires forall e :: unlisted(e) ==> AsRecorded()(e) in events
    ensures x in Listings(events, lookup) <==>
            exists first, last :: Span(unlisted, x.symbol, first, last)
              && lookup(x.symbol, first - 75, last + 75).Some? && x in lookup(x.symbol, first - 75, last + 75).value
  {
    FoundExactly(events, lookup, x);
    SpansAgree(unlisted, events, x.symbol);
  }

  lemma SpansAgree(unlisted: Event -> bool, events: seq<Recorded>, symbol: string)
    requires forall r :: r in events ==> exists e :: unlisted(e) && AsRecorded()(e) == r
    requires forall e :: unlisted(e) ==> AsRecorded()(e) in events
    ensures forall first, last :: Span(unlisted, symbol, first, last)
              <==> FirstDate(events, symbol) == Some(first) && LastDate(events, symbol) == Some(last)
  {
    forall first, last
      ensures Span(unlisted, symbol, first, last)
              <==> FirstDate(events, symbol) == Some(first) && LastDate(events, symbol) == Some(last)
    {
      SpanMeaning(unlisted, events, symbol, first, last);
    }
  }
}
