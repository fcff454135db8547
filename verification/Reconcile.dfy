/** The earnings calendar table: upserts that fill gaps without disturbing what is stored,
    and a reconciliation that retires the dates a fiscal quarter has moved away from. */
module Reconcile {
  import opened Sequences

  const LOOKUP_RADIUS_DAYS: int := 75
  const AFTER_CLOSE := "amc"

  /** Symbol, fiscal year, quarter: what a print is. */
  type Quarter = (string, int, int)

  /** Symbol and date: what a row is. */
  type RowKey = (string, int)

  datatype Reason = Reason(year: int, quarter: int, listedOn: int)

  datatype Event = Event(
    symbol: string, date: int, hour: Option<string>,
    epsEstimate: Option<real>, epsActual: Option<real>, revenueEstimate: Option<real>, revenueActual: Option<real>,
    quarter: Option<int>, year: Option<int>,
    supersededAt: Option<int>, supersededReason: Option<Reason>, supersededBy: Option<int>)

  datatype Entry = Entry(
    symbol: string, date: int, hour: Option<string>,
    epsEstimate: Option<real>, epsActual: Option<real>, revenueEstimate: Option<real>, revenueActual: Option<real>,
    quarter: Option<int>, year: Option<int>)

  datatype Recorded = Recorded(symbol: string, date: int, year: Option<int>, quarter: Option<int>, superseded: bool)

  datatype Supersession = Supersession(symbol: string, date: int, byDate: int, reason: Reason)

  datatype Plan = Plan(supersede: seq<Supersession>, reinstate: seq<Recorded>)

  // ------------------------------------------------------------------ canonical listings

  predicate Names(entry: Entry, q: Quarter) {
    entry.symbol == q.0 && entry.year == Some(q.1) && entry.quarter == Some(q.2)
  }

  /** The dates the listings give a quarter. */
  function Dates(listed: seq<Entry>, q: Quarter): set<int> {
    set i | 0 <= i < |listed| && Names(listed[i], q) :: listed[i].date
  }

  function Quarters(listed: seq<Entry>): set<Quarter> {
    set i | 0 <= i < |listed| && listed[i].year.Some? && listed[i].quarter.Some? ::
      (listed[i].symbol, listed[i].year.value, listed[i].quarter.value)
  }

  lemma Inhabited(s: set<int>)
    ensures s == {} || exists d: int :: d in s
  {
    if forall d: int :: d !in s {
      assert s == {};
    }
  }

  lemma Singleton(s: set<int>)
    requires |s| == 1
    ensures exists d :: s == {d}
  {
    Inhabited(s);
    var d :| d in s;
    assert |s - {d}| == 0;
    assert s == {d};
  }

  function Only(s: set<int>): (d: int)
    requires |s| == 1
    ensures s == {d}
  {
    Singleton(s);
    var d :| s == {d};
    d
  }

  /** A quarter listed on exactly one date; an ambiguous one is left alone. */
  function Canonical(listed: seq<Entry>): map<Quarter, int> {
    map q | q in Quarters(listed) && |Dates(listed, q)| == 1 :: Only(Dates(listed, q))
  }

  lemma QuartersNamed(listed: seq<Entry>, q: Quarter)
    ensures q in Quarters(listed) <==> Dates(listed, q) != {}
  {
    if Dates(listed, q) != {} {
      var d :| d in Dates(listed, q);
      var i :| 0 <= i < |listed| && Names(listed[i], q) && listed[i].date == d;
      assert q == (listed[i].symbol, listed[i].year.value, listed[i].quarter.value);
    }
    if q in Quarters(listed) {
      var i :| 0 <= i < |listed| && listed[i].year.Some? && listed[i].quarter.Some?
          && q == (listed[i].symbol, listed[i].year.value, listed[i].quarter.value);
      assert Names(listed[i], q);
      assert listed[i].date in Dates(listed, q);
    }
  }

  /** A quarter's canonical date is the one date that every listing of it gives. */
  lemma CanonicalMeaning(listed: seq<Entry>, q: Quarter, d: int)
    ensures (q in Canonical(listed) && Canonical(listed)[q] == d) <==>
            && (exists i :: 0 <= i < |listed| && Names(listed[i], q))
            && (forall i :: 0 <= i < |listed| && Names(listed[i], q) ==> listed[i].date == d)
  {
    QuartersNamed(listed, q);
    if exists i :: 0 <= i < |listed| && Names(listed[i], q) {
      var i :| 0 <= i < |listed| && Names(listed[i], q);
      assert listed[i].date in Dates(listed, q);
      if forall j :: 0 <= j < |listed| && Names(listed[j], q) ==> listed[j].date == d {
        assert Dates(listed, q) == {d};
      }
    }
    if q in Canonical(listed) && Canonical(listed)[q] == d {
      assert Dates(listed, q) == {d};
      assert forall j :: 0 <= j < |listed| && Names(listed[j], q) ==> listed[j].date in Dates(listed, q);
    }
  }

  // ------------------------------------------------------------------ the plan

  predicate RecordedLe(a: Recorded, b: Recorded) {
    if a.symbol == b.symbol then a.date <= b.date else TextLe(a.symbol, b.symbol)
  }

  function ListedDate(canonical: map<Quarter, int>, e: Recorded): Option<int> {
    if e.year.Some? && e.quarter.Some? && (e.symbol, e.year.value, e.quarter.value) in canonical
    then Some(canonical[(e.symbol, e.year.value, e.quarter.value)])
    else None
  }

  predicate IsMoved(canonical: map<Quarter, int>, e: Recorded) {
    ListedDate(canonical, e).Some? && ListedDate(canonical, e).value != e.date && !e.superseded
  }

  predicate IsBack(canonical: map<Quarter, int>, e: Recorded) {
    ListedDate(canonical, e) == Some(e.date) && e.superseded
  }

  function Moved(canonical: map<Quarter, int>): Recorded -> bool {
    (e: Recorded) => IsMoved(canonical, e)
  }

  function Back(canonical: map<Quarter, int>): Recorded -> bool {
    (e: Recorded) => IsBack(canonical, e)
  }

  function SupersessionOf(canonical: map<Quarter, int>): Recorded -> Supersession {
    (e: Recorded) =>
      var d := if ListedDate(canonical, e).Some? then ListedDate(canonical, e).value else e.date;
      Supersession(e.symbol, e.date, d,
                   Reason(if e.year.Some? then e.year.value else 0, if e.quarter.Some? then e.quarter.value else 0, d))
  }

  function PlanOf(recorded: seq<Recorded>, listed: seq<Entry>): Plan {
    var canonical := Canonical(listed);
    var ordered := SortBy(recorded, RecordedLe);
    Plan(Map(Filter(ordered, Moved(canonical)), SupersessionOf(canonical)), Filter(ordered, Back(canonical)))
  }

  method CollectDates(listed: seq<Entry>) returns (canonical: map<Quarter, int>)
    ensures canonical == Canonical(listed)
  {
    var dates: map<Quarter, set<int>> := map[];
    for i := 0 to |listed|
      invariant dates.Keys == Quarters(listed[..i])
      invariant forall q :: q in dates ==> dates[q] == Dates(listed[..i], q)
    {
      var entry := listed[i];
      NextListing(listed, i);
      if entry.year.None? || entry.quarter.None? {
        continue;
      }
      var q := (entry.symbol, entry.year.value, entry.quarter.value);
      QuartersNamed(listed[..i], q);
      dates := dates[q := (if q in dates then dates[q] else {}) + {entry.date}];
    }
    assert listed[..|listed|] == listed;
    canonical := map q | q in dates && |dates[q]| == 1 :: Only(dates[q]);
  }

  lemma NextListing(listed: seq<Entry>, i: nat)
    requires i < |listed|
    ensures Quarters(listed[..i + 1]) ==
            Quarters(listed[..i])
            + if listed[i].year.Some? && listed[i].quarter.Some?
              then {(listed[i].symbol, listed[i].year.value, listed[i].quarter.value)} else {}
    ensures forall q ::
              Dates(listed[..i + 1], q) == Dates(listed[..i], q) + if Names(listed[i], q) then {listed[i].date} else {}
  {
    var before, after := listed[..i], listed[..i + 1];
    assert after[i] == listed[i];
    assert forall k :: 0 <= k < i ==> after[k] == before[k];
  }

  lemma NextMoved(events: seq<Recorded>, canonical: map<Quarter, int>, i: nat)
    requires i < |events|
    ensures Map(Filter(events[..i + 1], Moved(canonical)), SupersessionOf(canonical)) ==
            Map(Filter(events[..i], Moved(canonical)), SupersessionOf(canonical))
            + if IsMoved(canonical, events[i]) then [SupersessionOf(canonical)(events[i])] else []
  {
    var before := Filter(events[..i], Moved(canonical));
    FilterNext(events, Moved(canonical), i);
    if IsMoved(canonical, events[i]) {
      MapConcat(before, [events[i]], SupersessionOf(canonical));
      assert Map([events[i]], SupersessionOf(canonical)) == [SupersessionOf(canonical)(events[i])];
    } else {
      assert before + [] == before;
    }
  }

  method PlanReconciliation(recorded: seq<Recorded>, listed: seq<Entry>) returns (plan: Plan)
    ensures plan == PlanOf(recorded, listed)
  {
    var canonical := CollectDates(listed);
    var ordered := SortBy(recorded, RecordedLe);
    var supersede: seq<Supersession> := [];
    var reinstate: seq<Recorded> := [];
    for i := 0 to |ordered|
      invariant supersede == Map(Filter(ordered[..i], Moved(canonical)), SupersessionOf(canonical))
      invariant reinstate == Filter(ordered[..i], Back(canonical))
    {
      var event := ordered[i];
      NextMoved(ordered, canonical, i);
      FilterNext(ordered, Back(canonical), i);
      if event.year.None? || event.quarter.None? {
        continue;
      }
      var q := (event.symbol, event.year.value, event.quarter.value);
      if q !in canonical {
        continue;
      }
      var listedDate := canonical[q];
      if event.date == listedDate {
        if event.superseded {
          reinstate := reinstate + [event];
        }
      } else if !event.superseded {
        supersede := supersede + [Supersession(event.symbol, event.date, listedDate,
                                               Reason(event.year.value, event.quarter.value, listedDate))];
      }
    }
    assert ordered[..|ordered|] == ordered;
    plan := Plan(supersede, reinstate);
  }

  // ------------------------------------------------------------------ updates of the table

  function KeyOf(e: Event): RowKey {
    (e.symbol, e.date)
  }

  function Retire(item: Supersession, now: int): Event -> Event {
    (e: Event) =>
      if KeyOf(e) == (item.symbol, item.date) && e.supersededAt.None?
      then e.(supersededAt := Some(now), supersededReason := Some(item.reason), supersededBy := Some(item.byDate))
      else e
  }

  function Restore(item: Recorded): Event -> Event {
    (e: Event) =>
      if KeyOf(e) == (item.symbol, item.date)
      then e.(supersededAt := None, supersededReason := None, supersededBy := None) else e
  }

  function RetireAll(rows: seq<Event>, items: seq<Supersession>, now: int): seq<Event> {
    if items == [] then rows else Map(RetireAll(rows, items[..|items| - 1], now), Retire(items[|items| - 1], now))
  }

  function RestoreAll(rows: seq<Event>, items: seq<Recorded>): seq<Event> {
    if items == [] then rows else Map(RestoreAll(rows, items[..|items| - 1]), Restore(items[|items| - 1]))
  }

  function Applied(rows: seq<Event>, plan: Plan, now: int): seq<Event> {
    RestoreAll(RetireAll(rows, plan.supersede, now), plan.reinstate)
  }

  function Coalesce<T>(first: Option<T>, second: Option<T>): Option<T> {
    if first.Some? then first else second
  }

  /** Stored estimates, quarter and year win; incoming actuals win; the hour is never touched. */
  function Refresh(entry: Entry): Event -> Event {
    (e: Event) =>
      if KeyOf(e) != (entry.symbol, entry.date) then e
      else e.(epsEstimate := Coalesce(e.epsEstimate, entry.epsEstimate),
              epsActual := Coalesce(entry.epsActual, e.epsActual),
              revenueEstimate := Coalesce(e.revenueEstimate, entry.revenueEstimate),
              revenueActual := Coalesce(entry.revenueActual, e.revenueActual),
              quarter := Coalesce(e.quarter, entry.quarter), year := Coalesce(e.year, entry.year))
  }

  function NewEvent(entry: Entry): Event {
    Event(entry.symbol, entry.date, entry.hour, entry.epsEstimate, entry.epsActual, entry.revenueEstimate,
          entry.revenueActual,
          entry.quarter, entry.year, None, None, None)
  }

  predicate HasRow(rows: seq<Event>, key: RowKey) {
    exists i :: 0 <= i < |rows| && KeyOf(rows[i]) == key
  }

  function Upserted(rows: seq<Event>, entry: Entry): seq<Event> {
    if HasRow(rows, (entry.symbol, entry.date)) then Map(rows, Refresh(entry)) else rows + [NewEvent(entry)]
  }

  function UpsertedAll(rows: seq<Event>, entries: seq<Entry>): seq<Event> {
    if entries == [] then rows else Upserted(UpsertedAll(rows, entries[..|entries| - 1]), entries[|entries| - 1])
  }

  // ------------------------------------------------------------------ queries and look-ups

  function AsRecorded(): Event -> Recorded {
    (e: Event) => Recorded(e.symbol, e.date, e.year, e.quarter, e.supersededAt.Some?)
  }

  /** After-close events, live or superseded, of the symbols given. */
  function OfSymbols(symbols: set<string>): Event -> bool {
    (e: Event) => e.hour == Some(AFTER_CLOSE) && e.symbol in symbols
  }

  function LiveBetween(from: int, until: int): Event -> bool {
    (e: Event) => e.hour == Some(AFTER_CLOSE) && e.supersededAt.None? && from <= e.date <= until
  }

  function RecordedEvents(rows: seq<Event>, symbols: set<string>): seq<Recorded> {
    SortBy(Map(Filter(rows, OfSymbols(symbols)), AsRecorded()), RecordedLe)
  }

  function LiveEvents(rows: seq<Event>, from: int, until: int): seq<Recorded> {
    SortBy(Map(Filter(rows, LiveBetween(from, until)), AsRecorded()), RecordedLe)
  }

  function SymbolsOf(listed: seq<Entry>): set<string> {
    set i | 0 <= i < |listed| :: listed[i].symbol
  }

  /** The calendar's answer for a symbol between two dates; `None` is a failed look-up. */
  type Lookup = (string, int, int) -> Option<seq<Entry>>

  function SymbolName(): Recorded -> string {
    (e: Recorded) => e.symbol
  }

  function OfSymbol(symbol: string): Entry -> bool {
    (e: Entry) => e.symbol == symbol
  }

  function FirstDate(events: seq<Recorded>, symbol: string): Option<int> {
    if events == [] then None
    else
      var rest, last := FirstDate(events[..|events| - 1], symbol), events[|events| - 1];
      if last.symbol == symbol && (rest.None? || last.date < rest.value) then Some(last.date) else rest
  }

  function LastDate(events: seq<Recorded>, symbol: string): Option<int> {
    if events == [] then None
    else
      var rest, last := LastDate(events[..|events| - 1], symbol), events[|events| - 1];
      if last.symbol == symbol && (rest.None? || last.date > rest.value) then Some(last.date) else rest
  }

  /** What a look-up contributes: nothing when it fails, and only the symbol's own entries. */
  function ListingsOf(events: seq<Recorded>, symbol: string, lookup: Lookup): seq<Entry> {
    var first, last := FirstDate(events, symbol), LastDate(events, symbol);
    if first.None? || last.None? then []
    else
      var entries := lookup(symbol, first.value - LOOKUP_RADIUS_DAYS, last.value + LOOKUP_RADIUS_DAYS);
      if entries.None? then [] else Filter(entries.value, OfSymbol(symbol))
  }

  function ListingsOfAll(events: seq<Recorded>, symbols: seq<string>, lookup: Lookup): seq<Entry> {
    if symbols == [] then []
    else ListingsOfAll(events, symbols[..|symbols| - 1], lookup) + ListingsOf(events, symbols[|symbols| - 1], lookup)
  }

  function Listings(events: seq<Recorded>, lookup: Lookup): seq<Entry> {
    ListingsOfAll(events, SortedSet(Map(events, SymbolName())), lookup)
  }

  method LookupSymbol(events: seq<Recorded>, symbol: string, lookup: Lookup) returns (found: seq<Entry>)
    ensures found == ListingsOf(events, symbol, lookup)
  {
    var first, last: Option<int> := None, None;
    for i := 0 to |events|
      invariant first == FirstDate(events[..i], symbol) && last == LastDate(events[..i], symbol)
    {
      assert events[..i + 1][..i] == events[..i];
      if events[i].symbol == symbol {
        first := if first.None? || events[i].date < first.value then Some(events[i].date) else first;
        last := if last.None? || events[i].date > last.value then Some(events[i].date) else last;
      }
    }
    assert events[..|events|] == events;
    if first.None? || last.None? {
      return [];
    }
    var entries := lookup(symbol, first.value - LOOKUP_RADIUS_DAYS, last.value + LOOKUP_RADIUS_DAYS);
    found := if entries.None? then [] else Filter(entries.value, OfSymbol(symbol));
  }

  method LookupListings(events: seq<Recorded>, lookup: Lookup) returns (listed: seq<Entry>)
    ensures listed == Listings(events, lookup)
  {
    var symbols := SortedSet(Map(events, SymbolName()));
    listed := [];
    for i := 0 to |symbols|
      invariant listed == ListingsOfAll(events, symbols[..i], lookup)
    {
      assert symbols[..i + 1][..i] == symbols[..i];
      var found := LookupSymbol(events, symbols[i], lookup);
      listed := listed + found;
    }
    assert symbols[..|symbols|] == symbols;
  }

  function ListedKeys(listed: seq<Entry>): set<RowKey> {
    set i | 0 <= i < |listed| :: (listed[i].symbol, listed[i].date)
  }

  function NotListed(keys: set<RowKey>): Recorded -> bool {
    (e: Recorded) => (e.symbol, e.date) !in keys
  }

  function Evidence(rows: seq<Event>, listed: seq<Entry>, from: int, until: int, lookup: Lookup): seq<Entry> {
    listed + Listings(Filter(LiveEvents(rows, from, until), NotListed(ListedKeys(listed))), lookup)
  }

  function PlanFor(rows: seq<Event>, evidence: seq<Entry>): Plan {
    PlanOf(RecordedEvents(rows, SymbolsOf(evidence)), evidence)
  }

  // ------------------------------------------------------------------ the table

  class EventTable {
    var rows: seq<Event>

    constructor ()
      ensures rows == []
    {
      rows := [];
    }

    method Upsert(entries: seq<Entry>) returns (inserted: nat)
      modifies this
      ensures rows == UpsertedAll(old(rows), entries)
      ensures |rows| == |old(rows)| + inserted
    {
      inserted := 0;
      for i := 0 to |entries|
        invariant rows == UpsertedAll(old(rows), entries[..i])
        invariant |rows| == |old(rows)| + inserted
      {
        assert entries[..i + 1][..i] == entries[..i];
        if HasRow(rows, (entries[i].symbol, entries[i].date)) {
          rows := Map(rows, Refresh(entries[i]));
        } else {
          rows := rows + [NewEvent(entries[i])];
          inserted := inserted + 1;
        }
      }
      assert entries[..|entries|] == entries;
    }

    method ApplyPlan(plan: Plan, now: int)
      modifies this
      ensures rows == Applied(old(rows), plan, now)
    {
      for i := 0 to |plan.supersede|
        invariant rows == RetireAll(old(rows), plan.supersede[..i], now)
      {
        assert plan.supersede[..i + 1][..i] == plan.supersede[..i];
        rows := Map(rows, Retire(plan.supersede[i], now));
      }
      assert plan.supersede[..|plan.supersede|] == plan.supersede;
      for i := 0 to |plan.reinstate|
        invariant rows == RestoreAll(RetireAll(old(rows), plan.supersede, now), plan.reinstate[..i])
      {
        assert plan.reinstate[..i + 1][..i] == plan.reinstate[..i];
        rows := Map(rows, Restore(plan.reinstate[i]));
      }
      assert plan.reinstate[..|plan.reinstate|] == plan.reinstate;
    }

    method Reconcile(listed: seq<Entry>, from: int, until: int, lookup: Lookup, dry: bool, now: int)
      returns (plan: Plan)
      modifies this
      ensures plan == PlanFor(old(rows), Evidence(old(rows), listed, from, until, lookup))
      ensures rows == if dry then old(rows) else Applied(old(rows), plan, now)
    {
      var keys := set i | 0 <= i < |listed| :: (listed[i].symbol, listed[i].date);
      var unlisted := Filter(LiveEvents(rows, from, until), NotListed(keys));
      var found := LookupListings(unlisted, lookup);
      var evidence := listed + found;
      plan := PlanReconciliation(RecordedEvents(rows, SymbolsOf(evidence)), evidence);
      if !dry {
        ApplyPlan(plan, now);
      }
    }
  }
}
