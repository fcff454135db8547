/** The feature table over time: insert-only persistence, and the one operation that
    retracts a stale row and inserts a recomputed one beside it. */
module FeatureLedger {
  import opened Sequences
  import opened Bars
  import opened Reactions
  import opened FeatureRow
  import opened ReactionLaws

  datatype VersionKey = VersionKey(symbol: string, earningsDate: int, feature: string, detector: string,
                                   classifier: string)

  /** Why a row was retracted: the digest it had, and the digest the evidence has now. */
  datatype Retraction = Retraction(oldDigest: EvidencePreimage, newDigest: EvidencePreimage)

  datatype Entry = Entry(row: StoredRow, retracted: Option<Retraction>)

  datatype StaleRow = StaleRow(symbol: string, earningsDate: int, digest: EvidencePreimage)

  type Events = map<(string, int), EventEvidence>

  function KeyOf(row: StoredRow): VersionKey {
    VersionKey(row.symbol, row.earningsDate, row.featureVersion, row.provenance.detectorVersion,
               row.provenance.classifierVersion)
  }

  predicate LiveFor(x: Entry, key: VersionKey) {
    x.retracted.None? && KeyOf(x.row) == key
  }

  predicate HasLive(entries: seq<Entry>, key: VersionKey) {
    exists i :: 0 <= i < |entries| && LiveFor(entries[i], key)
  }

  function RowOf(e: EventEvidence): StoredRow {
    BuildRow(e, Features(e))
  }

  // ------------------------------------------------------------------ what each operation does

  /** Insert, unless a live row of the same version already exists. */
  function Inserted(entries: seq<Entry>, row: StoredRow): seq<Entry> {
    if HasLive(entries, KeyOf(row)) then entries else entries + [Entry(row, None)]
  }

  function Persisted(entries: seq<Entry>, rows: seq<StoredRow>): seq<Entry> {
    if rows == [] then entries
    else Inserted(Persisted(entries, rows[..|rows| - 1]), rows[|rows| - 1])
  }

  /** The rows the retraction statement names: it does not mention the classifier. */
  predicate Hit(x: Entry, symbol: string, date: int, feature: string, detector: string) {
    && x.retracted.None?
    && x.row.symbol == symbol && x.row.earningsDate == date
    && x.row.featureVersion == feature && x.row.provenance.detectorVersion == detector
  }

  function Stamped(x: Entry, stale: StaleRow, feature: string, detector: string, note: Retraction): Entry {
    if Hit(x, stale.symbol, stale.earningsDate, feature, detector) then x.(retracted := Some(note)) else x
  }

  function Retracted(entries: seq<Entry>, stale: StaleRow, feature: string, detector: string,
                     note: Retraction): (r: seq<Entry>)
    ensures |r| == |entries|
    ensures forall i :: 0 <= i < |r| ==> r[i] == Stamped(entries[i], stale, feature, detector, note)
  {
    if entries == [] then []
    else [Stamped(entries[0], stale, feature, detector, note)] + Retracted(entries[1..], stale, feature, detector, note)
  }

  function EventKey(stale: StaleRow): (string, int) {
    (stale.symbol, stale.earningsDate)
  }

  predicate Changed(stale: StaleRow, events: Events) {
    EventKey(stale) in events && EvidenceDigest(events[EventKey(stale)]) != stale.digest
  }

  // What a run reports: the events whose evidence moved, with their new status, and the
  // events whose evidence is still the same.

  function ChangedIn(events: Events): StaleRow -> bool {
    (stale: StaleRow) => Changed(stale, events)
  }

  function UnchangedIn(events: Events): StaleRow -> bool {
    (stale: StaleRow) => EventKey(stale) in events && EvidenceDigest(events[EventKey(stale)]) == stale.digest
  }

  function AnswerIn(events: Events): StaleRow -> (string, int, Status) {
    (stale: StaleRow) =>
      (stale.symbol, stale.earningsDate,
       if EventKey(stale) in events then RowOf(events[EventKey(stale)]).verdict.status else InsufficientStatus)
  }

  function Replaced(entries: seq<Entry>, stale: StaleRow, e: EventEvidence, feature: string,
                    detector: string): seq<Entry> {
    var note := Retraction(stale.digest, EvidenceDigest(e));
    Inserted(Retracted(entries, stale, feature, detector, note), RowOf(e))
  }

  function ReprocessedOne(entries: seq<Entry>, stale: StaleRow, events: Events, feature: string,
                          detector: string): seq<Entry> {
    if Changed(stale, events)
    then Replaced(entries, stale, events[EventKey(stale)], feature, detector)
    else entries
  }

  function Reprocessed(entries: seq<Entry>, stale: seq<StaleRow>, events: Events, feature: string,
                       detector: string): seq<Entry> {
    if stale == [] then entries
    else
      ReprocessedOne(Reprocessed(entries, stale[..|stale| - 1], events, feature, detector),
                     stale[|stale| - 1], events, feature, detector)
  }

  predicate IsStale(x: Entry, feature: string, detector: string, classifier: string) {
    && x.retracted.None?
    && x.row.featureVersion == feature
    && x.row.provenance.detectorVersion == detector && x.row.provenance.classifierVersion == classifier
    && x.row.verdict.status.InsufficientStatus?
    && x.row.verdict.reason == Some(MissingCoverage)
  }

  function StaleOf(x: Entry): StaleRow {
    StaleRow(x.row.symbol, x.row.earningsDate, x.row.evidence)
  }

  function StaleTest(feature: string, detector: string, classifier: string): Entry -> bool {
    (x: Entry) => IsStale(x, feature, detector, classifier)
  }

  predicate StaleLe(a: StaleRow, b: StaleRow) {
    if a.symbol == b.symbol then a.earningsDate <= b.earningsDate else TextLe(a.symbol, b.symbol)
  }

  function StaleRows(entries: seq<Entry>, feature: string, detector: string, classifier: string): seq<StaleRow> {
    SortBy(Map(Filter(entries, StaleTest(feature, detector, classifier)), StaleOf), StaleLe)
  }

  // ------------------------------------------------------------------ the table

  class Ledger {
    var entries: seq<Entry>

    constructor ()
      ensures entries == []
    {
      entries := [];
    }

    method Insert(row: StoredRow) returns (inserted: bool)
      modifies this
      ensures entries == Inserted(old(entries), row)
      ensures inserted <==> !HasLive(old(entries), KeyOf(row))
    {
      inserted := !HasLive(entries, KeyOf(row));
      if inserted {
        entries := entries + [Entry(row, None)];
      }
    }

    method InsertAll(rows: seq<StoredRow>) returns (inserted: nat)
      modifies this
      ensures entries == Persisted(old(entries), rows)
      ensures && inserted <= |rows|
              && |entries| == |old(entries)| + inserted
    {
      inserted := 0;
      assert rows[..0] == [];
      for i := 0 to |rows|
        invariant entries == Persisted(old(entries), rows[..i])
        invariant inserted <= i && |entries| == |old(entries)| + inserted
      {
        assert rows[..i + 1][..i] == rows[..i];
        var isNew := Insert(rows[i]);
        if isNew {
          inserted := inserted + 1;
        }
      }
      assert rows[..|rows|] == rows;
    }

    method PersistFeatures(events: seq<EventEvidence>, dryRun: bool)
      returns (inserted: nat, alreadyPresent: nat, rows: seq<StoredRow>)
      modifies this
      ensures rows == Map(events, RowOf)
      ensures entries == if dryRun then old(entries) else Persisted(old(entries), rows)
      ensures !dryRun ==> inserted + alreadyPresent == |events| && |entries| == |old(entries)| + inserted
      ensures dryRun ==> inserted == alreadyPresent == 0
    {
      rows := Map(events, RowOf);
      if dryRun {
        return 0, 0, rows;
      }
      inserted := InsertAll(rows);
      alreadyPresent := |rows| - inserted;
    }

    method Retract(stale: StaleRow, feature: string, detector: string, note: Retraction)
      modifies this
      ensures entries == Retracted(old(entries), stale, feature, detector, note)
    {
      for i := 0 to |entries|
        invariant |entries| == |old(entries)|
        invariant forall j :: 0 <= j < i ==> entries[j] == Stamped(old(entries)[j], stale, feature, detector, note)
        invariant forall j :: i <= j < |entries| ==> entries[j] == old(entries)[j]
      {
        if Hit(entries[i], stale.symbol, stale.earningsDate, feature, detector) {
          entries := entries[i := entries[i].(retracted := Some(note))];
        }
      }
    }

    method ReprocessStaleCoverage(
      stale: seq<StaleRow>, events: Events, feature: string, detector: string, dryRun: bool)
      returns (reprocessed: seq<(string, int, Status)>, unchanged_: seq<(string, int)>)
      modifies this
      ensures entries == if dryRun then old(entries) else Reprocessed(old(entries), stale, events, feature, detector)
      ensures reprocessed == Map(Filter(stale, ChangedIn(events)), AnswerIn(events))
      ensures unchanged_ == Map(Filter(stale, UnchangedIn(events)), EventKey)
    {
      reprocessed, unchanged_ := [], [];
      assert stale[..0] == [];
      for i := 0 to |stale|
        invariant entries
                  == if dryRun then old(entries) else Reprocessed(old(entries), stale[..i], events, feature, detector)
        invariant reprocessed == Map(Filter(stale[..i], ChangedIn(events)), AnswerIn(events))
        invariant unchanged_ == Map(Filter(stale[..i], UnchangedIn(events)), EventKey)
      {
        assert stale[..i + 1][..i] == stale[..i];
        FilterMapNext(stale, ChangedIn(events), AnswerIn(events), i);
        FilterMapNext(stale, UnchangedIn(events), EventKey, i);
        var key := EventKey(stale[i]);
        if key in events {
          var e := events[key];
          if EvidenceDigest(e) == stale[i].digest {
            unchanged_ := unchanged_ + [key];
          } else {
            var features := ComputeReactionFeatures(e);
            var row := BuildRow(e, features);
            if !dryRun {
              Retract(stale[i], feature, detector, Retraction(stale[i].digest, EvidenceDigest(e)));
              var _ := Insert(row);
            }
            reprocessed := reprocessed + [(key.0, key.1, row.verdict.status)];
          }
        }
      }
      assert stale[..|stale|] == stale;
    }
  }

  // ------------------------------------------------------------------ what every run keeps

  ghost predicate OneLive(entries: seq<Entry>) {
    forall i, j :: 0 <= i < j < |entries| && entries[i].retracted.None? && entries[j].retracted.None? ==>
      KeyOf(entries[i].row) != KeyOf(entries[j].row)
  }

  /** Rows are only added or stamped once; no stored value changes. */
  ghost predicate Extends(before: seq<Entry>, after: seq<Entry>) {
    && |before| <= |after|
    && forall i :: 0 <= i < |before| ==>
         && after[i].row == before[i].row
         && (before[i].retracted.Some? ==> after[i] == before[i])
  }

  ghost predicate Kept(before: seq<Entry>, after: seq<Entry>) {
    && (OneLive(before) ==> OneLive(after))
    && Extends(before, after)
  }

  lemma InsertKeeps(entries: seq<Entry>, row: StoredRow)
    ensures Kept(entries, Inserted(entries, row))
    ensures HasLive(Inserted(entries, row), KeyOf(row))
  {
    if !HasLive(entries, KeyOf(row)) {
      assert LiveFor(Inserted(entries, row)[|entries|], KeyOf(row));
    }
  }

  lemma RetractKeeps(entries: seq<Entry>, stale: StaleRow, feature: string, detector: string, note: Retraction)
    ensures Kept(entries, Retracted(entries, stale, feature, detector, note))
  {
  }

  lemma {:induction false} PersistKeeps(entries: seq<Entry>, rows: seq<StoredRow>)
    ensures Kept(entries, Persisted(entries, rows))
  {
    if rows != [] {
      var shorter := rows[..|rows| - 1];
      PersistKeeps(entries, shorter);
      InsertKeeps(Persisted(entries, shorter), rows[|rows| - 1]);
    }
  }

  lemma ReplaceKeeps(entries: seq<Entry>, stale: StaleRow, e: EventEvidence, feature: string, detector: string)
    ensures Kept(entries, Replaced(entries, stale, e, feature, detector))
  {
    var note := Retraction(stale.digest, EvidenceDigest(e));
    var stamped := Retracted(entries, stale, feature, detector, note);
    RetractKeeps(entries, stale, feature, detector, note);
    InsertKeeps(stamped, RowOf(e));
  }

  lemma {:induction false} ReprocessKeeps(entries: seq<Entry>, stale: seq<StaleRow>, events: Events, feature: string,
                                          detector: string)
    ensures Kept(entries, Reprocessed(entries, stale, events, feature, detector))
  {
    if stale != [] {
      var shorter, last := stale[..|stale| - 1], stale[|stale| - 1];
      var middle := Reprocessed(entries, shorter, events, feature, detector);
      ReprocessKeeps(entries, shorter, events, feature, detector);
      if Changed(last, events) {
        ReplaceKeeps(middle, last, events[(last.symbol, last.earningsDate)], feature, detector);
      }
    }
  }

  datatype Call =
    | PersistCall(events: seq<EventEvidence>, dryRun: bool)
    | ReprocessCall(stale: seq<StaleRow>, known: Events, feature: string, detector: string, dryRun: bool)

  function Step(entries: seq<Entry>, call: Call): seq<Entry> {
    if call.dryRun then entries
    else
      match call
      case PersistCall(events, _) => Persisted(entries, Map(events, RowOf))
      case ReprocessCall(stale, known, feature, detector, _) => Reprocessed(entries, stale, known, feature, detector)
  }

  function Run(entries: seq<Entry>, calls: seq<Call>): seq<Entry> {
    if calls == [] then entries else Step(Run(entries, calls[..|calls| - 1]), calls[|calls| - 1])
  }

  lemma StepKeeps(entries: seq<Entry>, call: Call)
    ensures Kept(entries, Step(entries, call))
  {
    match call
    case PersistCall(events, _) => PersistKeeps(entries, Map(events, RowOf));
    case ReprocessCall(stale, known, feature, detector, _) => ReprocessKeeps(entries, stale, known, feature, detector);
  }

  /** Over any interleaving of runs, each version has at most one live row, rows are only
      added or stamped, and no stored value ever changes. */
  lemma {:induction false} RunKeeps(entries: seq<Entry>, calls: seq<Call>)
    ensures Kept(entries, Run(entries, calls))
    ensures OneLive(Run([], calls))
  {
    if calls != [] {
      var shorter := calls[..|calls| - 1];
      RunKeeps(entries, shorter);
      StepKeeps(Run(entries, shorter), calls[|calls| - 1]);
      StepKeeps(Run([], shorter), calls[|calls| - 1]);
    }
  }

  // ------------------------------------------------------------------ unchanged evidence

  /** Reprocessing evidence whose digest did not move writes nothing. */
  lemma {:induction false} UnchangedWritesNothing(entries: seq<Entry>, stale: seq<StaleRow>, events: Events,
                                                  feature: string, detector: string)
    requires forall i :: 0 <= i < |stale| ==> !Changed(stale[i], events)
    ensures Reprocessed(entries, stale, events, feature, detector) == entries
  {
    if stale != [] {
      UnchangedWritesNothing(entries, stale[..|stale| - 1], events, feature, detector);
    }
  }

  // ------------------------------------------------------------------ who stays live

  ghost predicate KeepsLive(before: seq<Entry>, after: seq<Entry>) {
    forall key :: HasLive(before, key) ==> HasLive(after, key)
  }

  /** Replacing a stale row keeps every version live exactly when the retraction names no
      live row but those of the version it reinserts. It names all classifiers, so a second
      classifier generation beside the current one loses its live row. */
  lemma ReplaceKeepsLive(entries: seq<Entry>, stale: StaleRow, e: EventEvidence, feature: string, detector: string)
    requires OneLive(entries)
    ensures KeepsLive(entries, Replaced(entries, stale, e, feature, detector)) <==>
            forall i :: 0 <= i < |entries| && Hit(entries[i], stale.symbol, stale.earningsDate, feature, detector) ==>
                          KeyOf(entries[i].row) == KeyOf(RowOf(e))
  {
    var note := Retraction(stale.digest, EvidenceDigest(e));
    var stamped := Retracted(entries, stale, feature, detector, note);
    InsertedLive(stamped, RowOf(e));
    RetractedLive(entries, stale, feature, detector, note);
    forall i | 0 <= i < |entries| && Hit(entries[i], stale.symbol, stale.earningsDate, feature, detector)
               && KeepsLive(entries, Inserted(stamped, RowOf(e)))
      ensures KeyOf(entries[i].row) == KeyOf(RowOf(e))
    {
      var key := KeyOf(entries[i].row);
      assert LiveFor(entries[i], key);
      assert HasLive(Inserted(stamped, RowOf(e)), key);
    }
  }

  lemma InsertedLive(entries: seq<Entry>, row: StoredRow)
    ensures forall key :: HasLive(Inserted(entries, row), key) <==> HasLive(entries, key) || key == KeyOf(row)
  {
    var after := Inserted(entries, row);
    InsertKeeps(entries, row);
    forall key ensures HasLive(after, key) <==> HasLive(entries, key) || key == KeyOf(row) {
      if HasLive(entries, key) {
        var i :| 0 <= i < |entries| && LiveFor(entries[i], key);
        assert LiveFor(after[i], key);
      }
    }
  }

  lemma RetractedLive(entries: seq<Entry>, stale: StaleRow, feature: string, detector: string, note: Retraction)
    requires OneLive(entries)
    ensures var after := Retracted(entries, stale, feature, detector, note);
            forall key :: HasLive(after, key) <==>
              exists i :: 0 <= i < |entries| && LiveFor(entries[i], key)
                          && !Hit(entries[i], stale.symbol, stale.earningsDate, feature, detector)
    ensures var after := Retracted(entries, stale, feature, detector, note);
            forall i :: 0 <= i < |entries| && Hit(entries[i], stale.symbol, stale.earningsDate, feature, detector) ==>
              !HasLive(after, KeyOf(entries[i].row))
  {
    var after := Retracted(entries, stale, feature, detector, note);
    forall key
      ensures HasLive(after, key) <==>
              exists i :: 0 <= i < |entries| && LiveFor(entries[i], key)
                          && !Hit(entries[i], stale.symbol, stale.earningsDate, feature, detector)
    {
      if HasLive(after, key) {
        var i :| 0 <= i < |after| && LiveFor(after[i], key);
        assert LiveFor(entries[i], key);
      }
      if i :|
          && 0 <= i < |entries| && LiveFor(entries[i], key)
          && !Hit(entries[i], stale.symbol, stale.earningsDate, feature, detector)
      {
        assert LiveFor(after[i], key);
      }
    }
  }

  ghost predicate EventsMatchKeys(events: Events) {
    forall key :: key in events ==> events[key].symbol == key.0 && events[key].earningsDate == key.1
  }

  lemma BuiltKey(e: EventEvidence)
    ensures KeyOf(RowOf(e))
            == VersionKey(e.symbol, e.earningsDate, FEATURE_VERSION, DETECTOR_VERSION, CLASSIFIER_VERSION)
    ensures RowOf(e).evidence == EvidenceDigest(e)
  {
  }

  /** A live row of another classifier generation is lost. */
  lemma OtherClassifierLost(entries: seq<Entry>, i: nat, stale: StaleRow, events: Events)
    requires OneLive(entries) && EventsMatchKeys(events) && Changed(stale, events)
    requires i < |entries| && Hit(entries[i], stale.symbol, stale.earningsDate, FEATURE_VERSION, DETECTOR_VERSION)
    requires entries[i].row.provenance.classifierVersion != CLASSIFIER_VERSION
    ensures HasLive(entries, KeyOf(entries[i].row))
    ensures !HasLive(ReprocessedOne(entries, stale, events, FEATURE_VERSION, DETECTOR_VERSION), KeyOf(entries[i].row))
  {
    var e := events[(stale.symbol, stale.earningsDate)];
    var note := Retraction(stale.digest, EvidenceDigest(e));
    BuiltKey(e);
    RetractedLive(entries, stale, FEATURE_VERSION, DETECTOR_VERSION, note);
    InsertedLive(Retracted(entries, stale, FEATURE_VERSION, DETECTOR_VERSION, note), RowOf(e));
    assert LiveFor(entries[i], KeyOf(entries[i].row));
  }

  // ------------------------------------------------------------------ reprocessing settles

  predicate Current(x: Entry) {
    IsStale(x, FEATURE_VERSION, DETECTOR_VERSION, CLASSIFIER_VERSION)
  }

  /** Every live stale row is settled against the events, or still waits in `pending`. */
  ghost predicate SettledUpTo(entries: seq<Entry>, pending: seq<StaleRow>, events: Events) {
    forall i :: 0 <= i < |entries| && Current(entries[i]) ==>
        !Changed(StaleOf(entries[i]), events) || StaleOf(entries[i]) in pending
  }

  lemma SettleReplaced(entries: seq<Entry>, pending: seq<StaleRow>, events: Events, note: Retraction, row: StoredRow)
    requires pending != [] && SettledUpTo(entries, pending, events)
    requires row.symbol == pending[0].symbol && row.earningsDate == pending[0].earningsDate
    requires !Changed(StaleRow(row.symbol, row.earningsDate, row.evidence), events)
    ensures SettledUpTo(Inserted(Retracted(entries, pending[0], FEATURE_VERSION, DETECTOR_VERSION, note), row),
                        pending[1..], events)
  {
    var stamped := Retracted(entries, pending[0], FEATURE_VERSION, DETECTOR_VERSION, note);
    var after := Inserted(stamped, row);
    assert forall s :: s in pending ==> s == pending[0] || s in pending[1..];
    forall i | 0 <= i < |after| && Current(after[i])
      ensures !Changed(StaleOf(after[i]), events) || StaleOf(after[i]) in pending[1..]
    {
      if i < |entries| {
        assert after[i] == entries[i];
      } else {
        assert after[i] == Entry(row, None);
      }
    }
  }

  lemma SettleOne(entries: seq<Entry>, pending: seq<StaleRow>, events: Events)
    requires EventsMatchKeys(events) && pending != [] && SettledUpTo(entries, pending, events)
    ensures SettledUpTo(ReprocessedOne(entries, pending[0], events, FEATURE_VERSION, DETECTOR_VERSION), pending[1..],
                        events)
  {
    var stale := pending[0];
    if Changed(stale, events) {
      var e := events[(stale.symbol, stale.earningsDate)];
      BuiltKey(e);
      SettleReplaced(entries, pending, events, Retraction(stale.digest, EvidenceDigest(e)), RowOf(e));
    } else {
      assert forall s :: s in pending ==> s == stale || s in pending[1..];
    }
  }

  lemma {:induction false} SettleAll(entries: seq<Entry>, done: seq<StaleRow>, pending: seq<StaleRow>, events: Events)
    requires EventsMatchKeys(events)
    requires SettledUpTo(Reprocessed(entries, done, events, FEATURE_VERSION, DETECTOR_VERSION), pending, events)
    ensures SettledUpTo(Reprocessed(entries, done + pending, events, FEATURE_VERSION, DETECTOR_VERSION), [], events)
    decreases |pending|
  {
    if pending == [] {
      assert done + pending == done;
    } else {
      SettleOne(Reprocessed(entries, done, events, FEATURE_VERSION, DETECTOR_VERSION), pending, events);
      assert (done + [pending[0]])[..|done|] == done;
      assert done + pending == (done + [pending[0]]) + pending[1..];
      SettleAll(entries, done + [pending[0]], pending[1..], events);
    }
  }

  lemma StaleRowsAll(entries: seq<Entry>)
    ensures forall s :: s in StaleRows(entries, FEATURE_VERSION, DETECTOR_VERSION, CLASSIFIER_VERSION) <==>
                          exists i :: 0 <= i < |entries| && Current(entries[i]) && StaleOf(entries[i]) == s
  {
    var test := StaleTest(FEATURE_VERSION, DETECTOR_VERSION, CLASSIFIER_VERSION);
    var found := Filter(entries, test);
    FilterMembers(entries, test);
    MapAt(found, StaleOf);
    SortContents(Map(found, StaleOf), StaleLe);
    forall s
      ensures s in Map(found, StaleOf)
              <==> exists i :: 0 <= i < |entries| && Current(entries[i]) && StaleOf(entries[i]) == s
    {
      if s in Map(found, StaleOf) {
        var j :| 0 <= j < |found| && StaleOf(found[j]) == s;
        assert found[j] in entries && test(found[j]);
        var i :| 0 <= i < |entries| && entries[i] == found[j];
        assert Current(entries[i]);
      }
      if i :| 0 <= i < |entries| && Current(entries[i]) && StaleOf(entries[i]) == s {
        assert test(entries[i]) && entries[i] in found;
        var j :| 0 <= j < |found| && found[j] == entries[i];
        assert Map(found, StaleOf)[j] == s;
      }
    }
  }

  function Reprocess(entries: seq<Entry>, events: Events): seq<Entry> {
    Reprocessed(entries, StaleRows(entries, FEATURE_VERSION, DETECTOR_VERSION, CLASSIFIER_VERSION), events,
                FEATURE_VERSION, DETECTOR_VERSION)
  }

  /** A second reprocessing run over the same evidence writes nothing. */
  lemma ReprocessIdempotent(entries: seq<Entry>, events: Events)
    requires EventsMatchKeys(events)
    ensures Reprocess(Reprocess(entries, events), events) == Reprocess(entries, events)
  {
    var stale := StaleRows(entries, FEATURE_VERSION, DETECTOR_VERSION, CLASSIFIER_VERSION);
    var after := Reprocess(entries, events);
    StaleRowsAll(entries);
    assert Reprocessed(entries, [], events, FEATURE_VERSION, DETECTOR_VERSION) == entries;
    SettleAll(entries, [], stale, events);
    assert [] + stale == stale;
    StaleRowsAll(after);
    var again := StaleRows(after, FEATURE_VERSION, DETECTOR_VERSION, CLASSIFIER_VERSION);
    forall i | 0 <= i < |again| ensures !Changed(again[i], events) {
      assert again[i] in again;
    }
    UnchangedWritesNothing(after, again, events, FEATURE_VERSION, DETECTOR_VERSION);
  }

  // ------------------------------------------------------------------ who stays live over a whole call

  predicate HitsKey(stale: StaleRow, key: VersionKey) {
    && key.symbol == stale.symbol && key.earningsDate == stale.earningsDate
    && key.feature == FEATURE_VERSION && key.detector == DETECTOR_VERSION
  }

  /** Whether a version is live after one stale row: one that is hit only as the version reinserted. */
  lemma LiveAfterOne(entries: seq<Entry>, stale: StaleRow, events: Events, key: VersionKey)
    requires OneLive(entries) && EventsMatchKeys(events)
    ensures HasLive(ReprocessedOne(entries, stale, events, FEATURE_VERSION, DETECTOR_VERSION), key) <==>
            if Changed(stale, events) && HitsKey(stale, key) then key.classifier == CLASSIFIER_VERSION
            else HasLive(entries, key)
  {
    if Changed(stale, events) {
      var e := events[EventKey(stale)];
      var note := Retraction(stale.digest, EvidenceDigest(e));
      BuiltKey(e);
      LiveAfterReplace(entries, stale, note, RowOf(e), key);
    }
  }

  lemma LiveAfterReplace(entries: seq<Entry>, stale: StaleRow, note: Retraction, row: StoredRow, key: VersionKey)
    requires OneLive(entries)
    requires KeyOf(row)
             == VersionKey(stale.symbol, stale.earningsDate, FEATURE_VERSION, DETECTOR_VERSION, CLASSIFIER_VERSION)
    ensures HasLive(Inserted(Retracted(entries, stale, FEATURE_VERSION, DETECTOR_VERSION, note), row), key) <==>
            if HitsKey(stale, key) then key.classifier == CLASSIFIER_VERSION else HasLive(entries, key)
  {
    RetractedLive(entries, stale, FEATURE_VERSION, DETECTOR_VERSION, note);
    InsertedLive(Retracted(entries, stale, FEATURE_VERSION, DETECTOR_VERSION, note), row);
  }

  ghost predicate HitByMoved(stale: seq<StaleRow>, events: Events, key: VersionKey) {
    exists j :: 0 <= j < |stale| && Changed(stale[j], events) && HitsKey(stale[j], key)
  }

  /** Which versions are live after a whole call, exactly. */
  lemma {:induction false} LiveAfterAll(entries: seq<Entry>, stale: seq<StaleRow>, events: Events, key: VersionKey)
    requires OneLive(entries) && EventsMatchKeys(events)
    ensures HasLive(Reprocessed(entries, stale, events, FEATURE_VERSION, DETECTOR_VERSION), key) <==>
            if HitByMoved(stale, events, key) then key.classifier == CLASSIFIER_VERSION else HasLive(entries, key)
  {
    if stale != [] {
      var n := |stale| - 1;
      LiveAfterAll(entries, stale[..n], events, key);
      ReprocessKeeps(entries, stale[..n], events, FEATURE_VERSION, DETECTOR_VERSION);
      LiveAfterOne(Reprocessed(entries, stale[..n], events, FEATURE_VERSION, DETECTOR_VERSION), stale[n], events, key);
      HitNext(stale, events, key);
    }
  }

  lemma HitNext(stale: seq<StaleRow>, events: Events, key: VersionKey)
    requires stale != []
    ensures var n := |stale| - 1;
            HitByMoved(stale, events, key)
            <==> HitByMoved(stale[..n], events, key) || (Changed(stale[n], events) && HitsKey(stale[n], key))
  {
    var n := |stale| - 1;
    forall j | 0 <= j < n ensures stale[..n][j] == stale[j] {
    }
  }

  /** A live row of the table that shares event, feature and detector with a stale row whose
      evidence moved. */
  ghost predicate InTheWay(entries: seq<Entry>, events: Events, i: nat, j: nat)
    requires i < |entries| && j < |entries|
  {
    && Current(entries[j]) && Changed(StaleOf(entries[j]), events)
    && Hit(entries[i], entries[j].row.symbol, entries[j].row.earningsDate, FEATURE_VERSION, DETECTOR_VERSION)
  }

  lemma InTheWayHit(entries: seq<Entry>, stale: seq<StaleRow>, events: Events, i: nat)
    requires i < |entries| && entries[i].retracted.None?
    requires stale == StaleRows(entries, FEATURE_VERSION, DETECTOR_VERSION, CLASSIFIER_VERSION)
    ensures HitByMoved(stale, events, KeyOf(entries[i].row))
            <==> exists j :: 0 <= j < |entries| && InTheWay(entries, events, i, j)
  {
    StaleRowsAll(entries);
    if j :| 0 <= j < |entries| && InTheWay(entries, events, i, j) {
      assert StaleOf(entries[j]) in stale;
      var n :| 0 <= n < |stale| && stale[n] == StaleOf(entries[j]);
      assert HitsKey(stale[n], KeyOf(entries[i].row));
    }
    if HitByMoved(stale, events, KeyOf(entries[i].row)) {
      var n :| 0 <= n < |stale| && Changed(stale[n], events) && HitsKey(stale[n], KeyOf(entries[i].row));
      assert stale[n] in stale;
      var j :| 0 <= j < |entries| && Current(entries[j]) && StaleOf(entries[j]) == stale[n];
      assert InTheWay(entries, events, i, j);
    }
  }

  /** A whole reprocessing keeps every version live exactly when every live row it retracts is
      of the current classifier. */
  lemma ReprocessKeepsLive(entries: seq<Entry>, events: Events)
    requires OneLive(entries) && EventsMatchKeys(events)
    ensures KeepsLive(entries, Reprocess(entries, events)) <==>
            forall i, j :: 0 <= i < |entries| && 0 <= j < |entries| && InTheWay(entries, events, i, j) ==>
                             entries[i].row.provenance.classifierVersion == CLASSIFIER_VERSION
  {
    var stale := StaleRows(entries, FEATURE_VERSION, DETECTOR_VERSION, CLASSIFIER_VERSION);
    forall i | 0 <= i < |entries| && entries[i].retracted.None?
      ensures HasLive(entries, KeyOf(entries[i].row))
      ensures HasLive(Reprocess(entries, events), KeyOf(entries[i].row)) <==>
              (exists j :: 0 <= j < |entries| && InTheWay(entries, events, i, j)) ==>
                entries[i].row.provenance.classifierVersion == CLASSIFIER_VERSION
    {
      assert LiveFor(entries[i], KeyOf(entries[i].row));
      LiveAfterAll(entries, stale, events, KeyOf(entries[i].row));
      InTheWayHit(entries, stale, events, i);
    }
  }

  // ------------------------------------------------------------------ constraints over runs

  ghost predicate AllRows(entries: seq<Entry>, ok: StoredRow -> bool) {
    forall i :: 0 <= i < |entries| ==> ok(entries[i].row)
  }

  ghost predicate EventsOf(call: Call, e: EventEvidence) {
    match call
    case PersistCall(events, _) => e in events
    case ReprocessCall(_, known, _, _, _) => e in known.Values
  }

  lemma {:induction false} PersistAllRows(entries: seq<Entry>, rows: seq<StoredRow>, ok: StoredRow -> bool)
    requires AllRows(entries, ok) && forall i :: 0 <= i < |rows| ==> ok(rows[i])
    ensures AllRows(Persisted(entries, rows), ok)
  {
    if rows != [] {
      PersistAllRows(entries, rows[..|rows| - 1], ok);
    }
  }

  lemma ReplaceAllRows(entries: seq<Entry>, stale: StaleRow, e: EventEvidence, feature: string, detector: string,
                       ok: StoredRow -> bool)
    requires AllRows(entries, ok) && ok(RowOf(e))
    ensures AllRows(Replaced(entries, stale, e, feature, detector), ok)
  {
    RetractInsertRows(entries, stale, Retraction(stale.digest, EvidenceDigest(e)), RowOf(e), feature, detector, ok);
  }

  lemma RetractInsertRows(entries: seq<Entry>, stale: StaleRow, note: Retraction, row: StoredRow, feature: string,
                          detector: string,
                          ok: StoredRow -> bool)
    requires AllRows(entries, ok) && ok(row)
    ensures AllRows(Inserted(Retracted(entries, stale, feature, detector, note), row), ok)
  {
  }

  lemma {:induction false} ReprocessAllRows(entries: seq<Entry>, stale: seq<StaleRow>, events: Events,
                                            feature: string, detector: string, ok: StoredRow -> bool)
    requires AllRows(entries, ok) && forall e :: e in events.Values ==> ok(RowOf(e))
    ensures AllRows(Reprocessed(entries, stale, events, feature, detector), ok)
  {
    if stale != [] {
      ReprocessAllRows(entries, stale[..|stale| - 1], events, feature, detector, ok);
      var last := stale[|stale| - 1];
      if Changed(last, events) {
        var e := events[(last.symbol, last.earningsDate)];
        assert e in events.Values;
        ReplaceAllRows(Reprocessed(entries, stale[..|stale| - 1], events, feature, detector), last, e, feature,
                       detector, ok);
      }
    }
  }

  /** A property that every row built from the events has, every row of the table keeps. */
  lemma {:induction false} RunAllRows(entries: seq<Entry>, calls: seq<Call>, ok: StoredRow -> bool)
    requires AllRows(entries, ok)
    requires forall i, e :: 0 <= i < |calls| && EventsOf(calls[i], e) ==> ok(RowOf(e))
    ensures AllRows(Run(entries, calls), ok)
  {
    if calls != [] {
      var before := Run(entries, calls[..|calls| - 1]);
      RunAllRows(entries, calls[..|calls| - 1], ok);
      var call := calls[|calls| - 1];
      assert forall e :: EventsOf(call, e) ==> ok(RowOf(e));
      match call
      case PersistCall(events, _) =>
        MapAt(events, RowOf);
        forall i | 0 <= i < |events| ensures ok(Map(events, RowOf)[i]) {
          assert EventsOf(call, events[i]);
        }
        PersistAllRows(before, Map(events, RowOf), ok);
      case ReprocessCall(stale, known, feature, detector, _) =>
        forall e | e in known.Values ensures ok(RowOf(e)) {
          assert EventsOf(call, e);
        }
        ReprocessAllRows(before, stale, known, feature, detector, ok);
    }
  }

  ghost predicate Sound(e: EventEvidence) {
    Identified(e) && (e.postmarketStart.Some? ==> Aligned(e))
  }

  lemma SoundRow(e: EventEvidence)
    requires Sound(e)
    ensures TableAccepts(RowOf(e))
  {
    AlignedRowFitsTable(e);
  }

  /** Over runs on identified, minute-aligned evidence, no insert ever violates a constraint. */
  lemma RunStorable(entries: seq<Entry>, calls: seq<Call>)
    requires AllRows(entries, TableAccepts)
    requires forall i, e :: 0 <= i < |calls| && EventsOf(calls[i], e) ==> Sound(e)
    ensures AllRows(Run(entries, calls), TableAccepts)
  {
    forall i, e | 0 <= i < |calls| && EventsOf(calls[i], e) ensures TableAccepts(RowOf(e)) {
      SoundRow(e);
    }
    RunAllRows(entries, calls, TableAccepts);
  }

  // ------------------------------------------------------------------ one classifier generation

  /** A row of the current feature and detector versions carries the current classifier version too. */
  predicate CurrentClassifier(row: StoredRow) {
    row.featureVersion == FEATURE_VERSION && row.provenance.detectorVersion == DETECTOR_VERSION ==>
      row.provenance.classifierVersion == CLASSIFIER_VERSION
  }

  /** A reprocessing call works on the current versions, on events found under their own key. */
  ghost predicate CurrentCall(call: Call) {
    call.ReprocessCall? ==>
      call.feature == FEATURE_VERSION && call.detector == DETECTOR_VERSION && EventsMatchKeys(call.known)
  }

  lemma ReplaceStaysLive(entries: seq<Entry>, stale: StaleRow, events: Events)
    requires OneLive(entries) && EventsMatchKeys(events) && AllRows(entries, CurrentClassifier)
    ensures KeepsLive(entries, ReprocessedOne(entries, stale, events, FEATURE_VERSION, DETECTOR_VERSION))
  {
    if Changed(stale, events) {
      var e := events[(stale.symbol, stale.earningsDate)];
      BuiltKey(e);
      ReplaceKeepsLive(entries, stale, e, FEATURE_VERSION, DETECTOR_VERSION);
    }
  }

  lemma {:induction false} ReprocessStaysLive(entries: seq<Entry>, stale: seq<StaleRow>, events: Events)
    requires OneLive(entries) && EventsMatchKeys(events) && AllRows(entries, CurrentClassifier)
    requires forall e :: e in events.Values ==> CurrentClassifier(RowOf(e))
    ensures KeepsLive(entries, Reprocessed(entries, stale, events, FEATURE_VERSION, DETECTOR_VERSION))
  {
    if stale != [] {
      var shorter := stale[..|stale| - 1];
      ReprocessStaysLive(entries, shorter, events);
      ReprocessKeeps(entries, shorter, events, FEATURE_VERSION, DETECTOR_VERSION);
      ReprocessAllRows(entries, shorter, events, FEATURE_VERSION, DETECTOR_VERSION, CurrentClassifier);
      ReplaceStaysLive(Reprocessed(entries, shorter, events, FEATURE_VERSION, DETECTOR_VERSION), stale[|stale| - 1],
                       events);
    }
  }

  lemma {:induction false} PersistStaysLive(entries: seq<Entry>, rows: seq<StoredRow>)
    ensures KeepsLive(entries, Persisted(entries, rows))
  {
    if rows != [] {
      PersistStaysLive(entries, rows[..|rows| - 1]);
      InsertedLive(Persisted(entries, rows[..|rows| - 1]), rows[|rows| - 1]);
    }
  }

  lemma StepStaysLive(entries: seq<Entry>, call: Call)
    requires OneLive(entries) && AllRows(entries, CurrentClassifier) && CurrentCall(call)
    requires forall e :: EventsOf(call, e) ==> CurrentClassifier(RowOf(e))
    ensures KeepsLive(entries, Step(entries, call))
  {
    match call
    case PersistCall(events, _) => PersistStaysLive(entries, Map(events, RowOf));
    case ReprocessCall(stale, known, _, _, _) =>
      forall e | e in known.Values ensures CurrentClassifier(RowOf(e)) {
        assert EventsOf(call, e);
      }
      ReprocessStaysLive(entries, stale, known);
  }

  lemma BuiltCurrent()
    ensures forall e :: CurrentClassifier(RowOf(e))
  {
    forall e ensures CurrentClassifier(RowOf(e)) {
      BuiltKey(e);
    }
  }

  /** While one classifier generation is stored beside the current versions, every version
      that has a live row keeps one over any interleaving of runs. */
  lemma {:induction false} OneClassifierStaysLive(entries: seq<Entry>, calls: seq<Call>)
    requires OneLive(entries) && AllRows(entries, CurrentClassifier)
    requires forall i :: 0 <= i < |calls| ==> CurrentCall(calls[i])
    ensures OneLive(Run(entries, calls)) && AllRows(Run(entries, calls), CurrentClassifier)
    ensures KeepsLive(entries, Run(entries, calls))
  {
    BuiltCurrent();
    RunKeeps(entries, calls);
    RunAllRows(entries, calls, CurrentClassifier);
    if calls != [] {
      var n := |calls| - 1;
      OneClassifierStaysLive(entries, calls[..n]);
      assert CurrentCall(calls[n]);
      StepStaysLive(Run(entries, calls[..n]), calls[n]);
    }
  }

  // ------------------------------------------------------------------ two classifier generations

  const NO_EVIDENCE: EventEvidence :=
    EventEvidence("AAA", 0, false, false, None, None, None, None, false, [], [], [],
                  None, None, None, None, false, false, None, None)

  /** The same event after the regular phase was fetched. */
  const REGULAR_FETCHED: EventEvidence :=
    NO_EVIDENCE.(regularCovered := true, regularStart := Some(0), regularEnd := Some(390 * 60),
                 regularHash := Some(HASH), regularMode := Some("scheduled_capture"))

  /** A row as an earlier classifier generation stored it. */
  function OfClassifier(row: StoredRow, classifier: string): StoredRow {
    row.(provenance := row.provenance.(classifierVersion := classifier))
  }

  lemma NoEvidenceRow() returns (row: StoredRow)
    ensures row == RowOf(NO_EVIDENCE)
    ensures KeyOf(row) == VersionKey("AAA", 0, FEATURE_VERSION, DETECTOR_VERSION, CLASSIFIER_VERSION)
    ensures IsStale(Entry(row, None), FEATURE_VERSION, DETECTOR_VERSION, CLASSIFIER_VERSION)
    ensures TableAccepts(row) && row.evidence.regularHash.None?
  {
    row := RowOf(NO_EVIDENCE);
    RejectedRow(NO_EVIDENCE, MissingCoverage);
  }

  lemma OlderAccepted(row: StoredRow, classifier: string)
    requires TableAccepts(row)
    ensures TableAccepts(OfClassifier(row, classifier))
  {
  }

  lemma OneStale(older: Entry, current: Entry)
    requires older.row.provenance.classifierVersion != CLASSIFIER_VERSION
    requires IsStale(current, FEATURE_VERSION, DETECTOR_VERSION, CLASSIFIER_VERSION)
    ensures StaleRows([older, current], FEATURE_VERSION, DETECTOR_VERSION, CLASSIFIER_VERSION) == [StaleOf(current)]
  {
    var entries, test := [older, current], StaleTest(FEATURE_VERSION, DETECTOR_VERSION, CLASSIFIER_VERSION);
    assert !test(older) && test(current);
    assert entries[1..] == [current] && [current][1..] == [];
    assert Filter([current], test) == [current];
    assert Filter(entries, test) == [current];
    MapAt([current], StaleOf);
    assert Map([current], StaleOf) == [StaleOf(current)];
    assert [StaleOf(current)][1..] == [];
    assert SortBy([StaleOf(current)], StaleLe) == [StaleOf(current)];
  }

  lemma ReprocessOnlyStale(entries: seq<Entry>, stale: StaleRow, events: Events)
    requires StaleRows(entries, FEATURE_VERSION, DETECTOR_VERSION, CLASSIFIER_VERSION) == [stale]
    ensures Reprocess(entries, events) == ReprocessedOne(entries, stale, events, FEATURE_VERSION, DETECTOR_VERSION)
  {
    assert [stale][..|[stale]| - 1] == [];
    assert Reprocessed(entries, [], events, FEATURE_VERSION, DETECTOR_VERSION) == entries;
    assert Reprocessed(entries, [stale], events, FEATURE_VERSION, DETECTOR_VERSION)
        == ReprocessedOne(entries, stale, events, FEATURE_VERSION, DETECTOR_VERSION);
  }

  lemma TwoLive(older: Entry, current: Entry)
    requires older.retracted.None? && current.retracted.None? && KeyOf(older.row) != KeyOf(current.row)
    ensures OneLive([older, current])
    ensures HasLive([older, current], KeyOf(older.row)) && HasLive([older, current], KeyOf(current.row))
  {
    assert LiveFor([older, current][0], KeyOf(older.row)) && LiveFor([older, current][1], KeyOf(current.row));
  }

  lemma OlderRetracted(older: Entry, current: Entry, events: Events)
    requires older.retracted.None? && EventsMatchKeys(events)
    requires IsStale(current, FEATURE_VERSION, DETECTOR_VERSION, CLASSIFIER_VERSION)
    requires older.row.provenance.classifierVersion != CLASSIFIER_VERSION
    requires KeyOf(older.row) == KeyOf(current.row).(classifier := older.row.provenance.classifierVersion)
    requires Changed(StaleOf(current), events)
    ensures !HasLive(Reprocess([older, current], events), KeyOf(older.row))
  {
    TwoLive(older, current);
    OneStale(older, current);
    ReprocessOnlyStale([older, current], StaleOf(current), events);
    assert Hit([older, current][0], current.row.symbol, current.row.earningsDate, FEATURE_VERSION, DETECTOR_VERSION);
    OtherClassifierLost([older, current], 0, StaleOf(current), events);
  }

  lemma RegularFetchedMoved(row: StoredRow, events: Events)
    requires row.symbol == "AAA" && row.earningsDate == 0 && row.evidence.regularHash.None?
    requires events == map[("AAA", 0) := REGULAR_FETCHED]
    ensures EventsMatchKeys(events) && Changed(StaleOf(Entry(row, None)), events)
  {
    assert EvidenceDigest(REGULAR_FETCHED).regularHash.Some?;
  }

  /** A table holding one event's rows of two classifier generations, both live: when the
      event's evidence moves, reprocessing leaves the earlier generation without a live row. */
  lemma EarlierClassifierRetracted() returns (entries: seq<Entry>, events: Events)
    ensures |entries| == 2 && OneLive(entries) && EventsMatchKeys(events)
    ensures TableAccepts(entries[0].row) && TableAccepts(entries[1].row)
    ensures HasLive(entries, KeyOf(entries[0].row)) && HasLive(entries, KeyOf(entries[1].row))
    ensures !HasLive(Reprocess(entries, events), KeyOf(entries[0].row))
  {
    var row := NoEvidenceRow();
    var older := OfClassifier(row, "path-retention-v0");
    entries := [Entry(older, None), Entry(row, None)];
    events := map[("AAA", 0) := REGULAR_FETCHED];
    OlderAccepted(row, "path-retention-v0");
    RegularFetchedMoved(row, events);
    TwoLive(entries[0], entries[1]);
    OlderRetracted(entries[0], entries[1], events);
  }

  // ------------------------------------------------------------------ what is stale, and what moved

  lemma StaleLeTotal()
    ensures TotalPreorder(StaleLe)
  {
    forall a: StaleRow, b: StaleRow ensures StaleLe(a, b) || StaleLe(b, a) {
      TextLeTotal(a.symbol, b.symbol);
    }
    forall a: StaleRow, b: StaleRow, c: StaleRow | StaleLe(a, b) && StaleLe(b, c) ensures StaleLe(a, c) {
      TextLeTotal(a.symbol, b.symbol);
      TextLeTotal(b.symbol, c.symbol);
      TextLeTransitive(a.symbol, b.symbol, c.symbol);
    }
  }

  /** Earlier by symbol, and within a symbol no later by date. */
  ghost predicate InOrder(a: StaleRow, b: StaleRow) {
    TextLe(a.symbol, b.symbol) && (a.symbol == b.symbol ==> a.earningsDate <= b.earningsDate)
  }

  /** A run works on, and reports, stale rows by symbol and then by date. */
  lemma StaleInOrder(entries: seq<Entry>)
    ensures var stale := StaleRows(entries, FEATURE_VERSION, DETECTOR_VERSION, CLASSIFIER_VERSION);
            forall i, j :: 0 <= i < j < |stale| ==> InOrder(stale[i], stale[j])
  {
    var stale := StaleRows(entries, FEATURE_VERSION, DETECTOR_VERSION, CLASSIFIER_VERSION);
    var found := Filter(entries, StaleTest(FEATURE_VERSION, DETECTOR_VERSION, CLASSIFIER_VERSION));
    StaleLeTotal();
    SortSorted(Map(found, StaleOf), StaleLe);
    forall i, j | 0 <= i < j < |stale| ensures InOrder(stale[i], stale[j]) {
      TextLeTotal(stale[i].symbol, stale[j].symbol);
    }
  }

  /** The rows a run works on are those of live, current entries that were insufficient only
      because their coverage was missing. */
  lemma StaleExactly(entries: seq<Entry>, s: StaleRow)
    ensures s in StaleRows(entries, FEATURE_VERSION, DETECTOR_VERSION, CLASSIFIER_VERSION) <==>
            exists i :: 0 <= i < |entries| && StaleEntry(entries[i], s)
  {
    StaleRowsAll(entries);
    forall i | 0 <= i < |entries|
      ensures Current(entries[i]) && StaleOf(entries[i]) == s <==> StaleEntry(entries[i], s)
    {
    }
  }

  predicate StaleEntry(x: Entry, s: StaleRow) {
    && x.retracted == None
    && x.row.featureVersion == "earnings-reaction-v3"
    && x.row.provenance.detectorVersion == "fixed-preclose-2pct-v1"
    && x.row.provenance.classifierVersion == "path-retention-v1"
    && x.row.verdict.status == InsufficientStatus && x.row.verdict.reason == Some(MissingCoverage)
    && s == StaleRow(x.row.symbol, x.row.earningsDate, x.row.evidence)
  }

  /** Everything about an event but its bars. */
  ghost predicate SameResponses(a: EventEvidence, b: EventEvidence) {
    && (a.symbol, a.earningsDate) == (b.symbol, b.earningsDate)
    && (a.regularHash, a.postmarketHash) == (b.regularHash, b.postmarketHash)
    && (a.regularStart, a.regularEnd) == (b.regularStart, b.regularEnd)
    && (a.postmarketStart, a.postmarketEnd) == (b.postmarketStart, b.postmarketEnd)
  }

  /** With one bar a time, the digest moves exactly when a response, a bound or a bar does, and
      never for the order of the bars. */
  lemma DigestExactly(a: EventEvidence, b: EventEvidence)
    requires DistinctTimes(a.regularBars) && DistinctTimes(a.postmarketBars)
    ensures EvidenceDigest(a) == EvidenceDigest(b) <==>
            && SameResponses(a, b)
            && multiset(a.regularBars) == multiset(b.regularBars)
            && multiset(a.postmarketBars) == multiset(b.postmarketBars)
  {
    SortContents(a.regularBars, TsLe);
    SortContents(b.regularBars, TsLe);
    SortContents(a.postmarketBars, TsLe);
    SortContents(b.postmarketBars, TsLe);
    if multiset(a.regularBars) == multiset(b.regularBars) && multiset(a.postmarketBars) == multiset(b.postmarketBars) {
      assert NoTies(a.regularBars, TsLe) && NoTies(a.postmarketBars, TsLe);
      SortPermutation(a.regularBars, b.regularBars, TsLe);
      SortPermutation(a.postmarketBars, b.postmarketBars, TsLe);
    }
  }

  // ------------------------------------------------------------------ one replacement, entry by entry

  /** A live entry of the stale row's event, feature and detector. */
  predicate Superseded(x: Entry, stale: StaleRow, feature: string, detector: string) {
    && x.retracted == None
    && (x.row.symbol, x.row.earningsDate) == (stale.symbol, stale.earningsDate)
    && (x.row.featureVersion, x.row.provenance.detectorVersion) == (feature, detector)
  }

  /** A moved stale row stamps exactly the live entries it names, with the digest they had and the
      digest the evidence has now, and the recomputed row is then live. */
  lemma ReplacedEntries(entries: seq<Entry>, stale: StaleRow, events: Events, feature: string, detector: string)
    requires Changed(stale, events)
    ensures var (after, e) := (ReprocessedOne(entries, stale, events, feature, detector), events[EventKey(stale)]);
            && |entries| <= |after| <= |entries| + 1
            && (forall i :: 0 <= i < |entries| ==>
                  after[i] == if !Superseded(entries[i], stale, feature, detector) then entries[i]
                              else Entry(entries[i].row, Some(Retraction(stale.digest, EvidenceDigest(e)))))
            && (|after| > |entries| ==> after[|entries|] == Entry(RowOf(e), None))
            && HasLive(after, KeyOf(RowOf(e)))
  {
    var e := events[EventKey(stale)];
    NotedEntries(entries, stale, feature, detector, Retraction(stale.digest, EvidenceDigest(e)), RowOf(e));
  }

  lemma NotedEntries(entries: seq<Entry>, stale: StaleRow, feature: string, detector: string, note: Retraction,
                     row: StoredRow)
    ensures var after := Inserted(Retracted(entries, stale, feature, detector, note), row);
            && |entries| <= |after| <= |entries| + 1
            && (forall i :: 0 <= i < |entries| ==>
                  after[i] == if Superseded(entries[i], stale, feature, detector)
                              then Entry(entries[i].row, Some(note)) else entries[i])
            && (|after| > |entries| ==> after[|entries|] == Entry(row, None))
            && HasLive(after, KeyOf(row))
  {
    InsertKeeps(Retracted(entries, stale, feature, detector, note), row);
  }
}
