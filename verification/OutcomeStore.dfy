/** Insert-only persistence of outcomes: rows flattened into numbered placeholders, sent a
    hundred at a time, and inserted unless their key is already stored. */
module OutcomeStore {
  import opened Sequences
  import opened Bars
  import opened Outcomes
  import opened OutcomeLaws

  const OUTCOME_VERSION := "following-session-v2"
  const OUTCOME_ALGORITHM := "following_session_observation"
  const BATCH: nat := 100
  const WIDTH: nat := 51

  datatype StoredOutcome = StoredOutcome(
    result: Result, regular: Option<Coverage>, premarket: Option<Coverage>, following: Option<Coverage>,
    computedAt: int)

  datatype Cell =
    | Empty | Text(text: string) | Number(number: real) | Whole(whole: int) | Texts(texts: seq<string>)
    | DigestOf(evidence: Evidence) | ValuesDocument(values: Values) | ParametersDocument(availableAfter: int)
    | IdentityDocument(identities: seq<Option<Coverage>>)

  type Row = seq<Cell>

  function BuildOutcome(e: Evidence, now: int): StoredOutcome
    requires Computable(e)
  {
    StoredOutcome(OutcomeAt(e, now), e.regular, e.premarket, e.following, now)
  }

  // ------------------------------------------------------------------ columns

  function NumberCell(v: Option<real>): Cell {
    if v.None? then Empty else Number(v.value)
  }

  function WholeCell(v: Option<int>): Cell {
    if v.None? then Empty else Whole(v.value)
  }

  function StatusText(s: Status): string {
    match s
    case CompleteOutcome => "complete"
    case InsufficientData => "insufficient_data"
    case NotYetAvailable => "not_yet_available"
  }

  function IdentityCells(r: Result): (c: seq<Cell>)
    ensures |c| == 6
  {
    [Text(r.symbol), Whole(r.date), Text(OUTCOME_VERSION), Text(OUTCOME_ALGORITHM), Text(StatusText(r.status)),
     if r.status.CompleteOutcome? then Empty else Text(StatusText(r.status))]
  }

  function PriceCells(p: Prices): (c: seq<Cell>)
    ensures |c| == 4
  {
    [NumberCell(p.first), NumberCell(p.high), NumberCell(p.low), NumberCell(p.last)]
  }

  function HorizonCell(v: Values, minute: int): Cell {
    if minute in v.horizons then NumberCell(v.horizons[minute]) else Empty
  }

  function ValueCells(v: Values): (c: seq<Cell>)
    ensures |c| == 23
  {
    [NumberCell(v.reference), WholeCell(v.referenceTs)] + PriceCells(v.premarket) + PriceCells(v.regular)
    + PriceCells(v.premarketReturns) + PriceCells(v.regularReturns)
    + [HorizonCell(v, 5), HorizonCell(v, 30), HorizonCell(v, 60), NumberCell(v.regularReturns.first),
       NumberCell(v.regularReturns.last)]
  }

  function TallyCells(t: Outcomes.Tally): (c: seq<Cell>)
    ensures |c| == 3
  {
    [Whole(t.observed), Whole(t.expected), Number(t.ratio)]
  }

  function CoverageCells(c: Option<Coverage>): (r: seq<Cell>)
    ensures |r| == 2
  {
    if c.None? then [Empty, Empty] else [Text(c.value.response), Text(c.value.mode)]
  }

  function IdentityOf(c: Option<Coverage>): Option<Coverage> {
    if c.None? then None else Some(c.value.(observed := 0, expected := 0, flags := [], bars := []))
  }

  function ClosingCells(s: StoredOutcome): (c: seq<Cell>)
    ensures |c| == 6
  {
    [DigestOf(s.result.digest), ParametersDocument(s.result.availableAfter), ValuesDocument(s.result.values),
     Texts(s.result.missing), Texts(s.result.flags), Whole(s.computedAt)]
  }

  function MiddleCells(s: StoredOutcome): (c: seq<Cell>)
    ensures |c| == 39
  {
    ValueCells(s.result.values)
    + TallyCells(s.result.regular) + TallyCells(s.result.premarket) + TallyCells(s.result.following)
    + CoverageCells(s.regular) + CoverageCells(s.premarket) + CoverageCells(s.following)
    + [IdentityDocument([IdentityOf(s.regular), IdentityOf(s.premarket), IdentityOf(s.following)])]
  }

  function Cells(): StoredOutcome -> Row {
    (s: StoredOutcome) => IdentityCells(s.result) + MiddleCells(s) + ClosingCells(s)
  }

  /** The conflict key: symbol, date, version and evidence digest, by column position. */
  function RowKey(row: Row): (Cell, Cell, Cell, Cell) {
    if |row| == WIDTH then (row[0], row[1], row[2], row[45]) else (Empty, Empty, Empty, Empty)
  }

  lemma KeyColumns(s: StoredOutcome)
    ensures |Cells()(s)| == WIDTH
    ensures RowKey(Cells()(s))
            == (Text(s.result.symbol), Whole(s.result.date), Text(OUTCOME_VERSION), DigestOf(s.result.digest))
  {
    var a, b, c := IdentityCells(s.result), MiddleCells(s), ClosingCells(s);
    assert (a + b + c)[45] == c[0];
    assert (a + b + c)[0] == a[0] && (a + b + c)[1] == a[1] && (a + b + c)[2] == a[2];
  }

  // ------------------------------------------------------------------ placeholders

  function Flatten(rows: seq<Row>): Row {
    if rows == [] then [] else Flatten(rows[..|rows| - 1]) + rows[|rows| - 1]
  }

  predicate FullWidth(rows: seq<Row>) {
    forall i :: 0 <= i < |rows| ==> |rows[i]| == WIDTH
  }

  lemma {:induction false} FlattenRowMajor(rows: seq<Row>)
    requires FullWidth(rows)
    ensures |Flatten(rows)| == |rows| * WIDTH
    ensures forall i :: 0 <= i < |rows| ==> Flatten(rows)[i * WIDTH..(i + 1) * WIDTH] == rows[i]
  {
    if rows != [] {
      var n := |rows| - 1;
      var front := rows[..n];
      FlattenRowMajor(front);
      var done := Flatten(front);
      forall i | 0 <= i < |rows| ensures Flatten(rows)[i * WIDTH..(i + 1) * WIDTH] == rows[i] {
        assert Flatten(rows) == done + rows[n];
        if i < n {
          assert (i + 1) * WIDTH <= |done|;
          assert front[i] == rows[i];
          assert Flatten(rows)[i * WIDTH..(i + 1) * WIDTH] == done[i * WIDTH..(i + 1) * WIDTH];
        } else {
          assert done + rows[n] == Flatten(rows) && |done| == i * WIDTH;
        }
      }
    }
  }

  /** Placeholders of one row of a statement: `WIDTH` consecutive numbers, row after row. */
  predicate IsRowGroup(group: seq<nat>, row: nat) {
    |group| == WIDTH && forall j :: 0 <= j < WIDTH ==> group[j] == row * WIDTH + 1 + j
  }

  predicate IsStatement(groups: seq<seq<nat>>) {
    forall i :: 0 <= i < |groups| ==> IsRowGroup(groups[i], i)
  }

  /** A statement of 1 to `BATCH` rows; any other size is refused. */
  method InsertSql(count: nat) returns (groups: Option<seq<seq<nat>>>)
    ensures groups.None? <==> count < 1 || count > BATCH
    ensures groups.Some? ==> |groups.value| == count && IsStatement(groups.value)
  {
    if count < 1 || count > BATCH {
      return None;
    }
    var built: seq<seq<nat>> := [];
    for i := 0 to count
      invariant |built| == i && IsStatement(built)
    {
      var start := i * WIDTH + 1;
      var group: seq<nat> := [];
      for j := 0 to WIDTH
        invariant |group| == j
        invariant forall k :: 0 <= k < j ==> group[k] == start + k
      {
        group := group + [start + j];
      }
      built := built + [group];
    }
    groups := Some(built);
  }

  function ArgumentAt(args: Row, n: nat): Cell {
    if 1 <= n <= |args| then args[n - 1] else Empty
  }

  function ResolveGroup(group: seq<nat>, args: Row): Row {
    seq(|group|, i requires 0 <= i < |group| => ArgumentAt(args, group[i]))
  }

  /** The rows a statement inserts once its placeholders are replaced. */
  function Resolve(groups: seq<seq<nat>>, args: Row): (rows: seq<Row>)
    ensures |rows| == |groups|
    ensures forall i :: 0 <= i < |rows| ==> rows[i] == ResolveGroup(groups[i], args)
  {
    seq(|groups|, i requires 0 <= i < |groups| => ResolveGroup(groups[i], args))
  }

  /** Numbering the placeholders row by row and sending the cells row by row gives the rows back. */
  lemma PlaceholdersGiveRows(groups: seq<seq<nat>>, rows: seq<Row>)
    requires FullWidth(rows) && IsStatement(groups) && |groups| == |rows|
    ensures Resolve(groups, Flatten(rows)) == rows
  {
    FlattenRowMajor(rows);
    var args := Flatten(rows);
    forall i | 0 <= i < |rows| ensures ResolveGroup(groups[i], args) == rows[i] {
      assert IsRowGroup(groups[i], i);
      var slice := args[i * WIDTH..(i + 1) * WIDTH];
      assert slice == rows[i];
      forall j | 0 <= j < WIDTH ensures ResolveGroup(groups[i], args)[j] == rows[i][j] {
        assert slice[j] == args[i * WIDTH + j];
      }
    }
  }

  // ------------------------------------------------------------------ insert unless present

  predicate HasKey(table: seq<Row>, row: Row) {
    exists i :: 0 <= i < |table| && RowKey(table[i]) == RowKey(row)
  }

  function InsertOne(table: seq<Row>, row: Row): seq<Row> {
    if HasKey(table, row) then table else table + [row]
  }

  /** One-by-one insertion. */
  function InsertAll(table: seq<Row>, rows: seq<Row>): seq<Row> {
    if rows == [] then table else InsertOne(InsertAll(table, rows[..|rows| - 1]), rows[|rows| - 1])
  }

  lemma {:induction false} InsertAllConcat(table: seq<Row>, a: seq<Row>, b: seq<Row>)
    ensures InsertAll(table, a + b) == InsertAll(InsertAll(table, a), b)
  {
    if b == [] {
      assert a + b == a;
    } else {
      assert (a + b)[..|a + b| - 1] == a + b[..|b| - 1];
      InsertAllConcat(table, a, b[..|b| - 1]);
    }
  }

  ghost predicate DistinctKeys(table: seq<Row>) {
    forall i, j :: 0 <= i < j < |table| ==> RowKey(table[i]) != RowKey(table[j])
  }

  /** Stored rows are never touched, keys stay unique, and every row offered has its key stored. */
  lemma {:induction false} InsertAllKeeps(table: seq<Row>, rows: seq<Row>)
    ensures |table| <= |InsertAll(table, rows)| <= |table| + |rows|
    ensures InsertAll(table, rows)[..|table|] == table
    ensures DistinctKeys(table) ==> DistinctKeys(InsertAll(table, rows))
    ensures forall i :: 0 <= i < |rows| ==> HasKey(InsertAll(table, rows), rows[i])
  {
    if rows != [] {
      var front, last := rows[..|rows| - 1], rows[|rows| - 1];
      InsertAllKeeps(table, front);
      var before, after := InsertAll(table, front), InsertAll(table, rows);
      HasKeyStays(before, last);
      forall i | 0 <= i < |rows| ensures HasKey(after, rows[i]) {
        if i < |front| {
          assert HasKey(before, front[i]);
          HasKeyKept(before, last, front[i]);
        }
      }
    }
  }

  lemma HasKeyStays(table: seq<Row>, row: Row)
    ensures HasKey(InsertOne(table, row), row)
  {
    if !HasKey(table, row) {
      assert (table + [row])[|table|] == row;
    }
  }

  lemma HasKeyKept(table: seq<Row>, row: Row, other: Row)
    requires HasKey(table, other)
    ensures HasKey(InsertOne(table, row), other)
  {
    var i :| 0 <= i < |table| && RowKey(table[i]) == RowKey(other);
    assert InsertOne(table, row)[i] == table[i];
  }

  lemma {:induction false} NothingNew(table: seq<Row>, rows: seq<Row>)
    requires forall i :: 0 <= i < |rows| ==> HasKey(table, rows[i])
    ensures InsertAll(table, rows) == table
  {
    if rows != [] {
      NothingNew(table, rows[..|rows| - 1]);
    }
  }

  // ------------------------------------------------------------------ the table's checks

  predicate Positive(v: Option<real>) {
    v.Some? ==> v.value > 0.0
  }

  predicate PositivePrices(p: Prices) {
    Positive(p.first) && Positive(p.high) && Positive(p.low) && Positive(p.last)
  }

  predicate TallyChecks(t: Outcomes.Tally) {
    0 <= t.observed <= t.expected && t.expected > 0 && 0.0 <= t.ratio <= 1.0
  }

  predicate StatusChecks(r: Result) {
    if r.status.CompleteOutcome? then
      r.missing == [] && forall i :: 0 <= i < |RequiredFields(r.values)| ==> RequiredFields(r.values)[i].present
    else r.status.InsufficientData? && r.missing != []
  }

  predicate IdentityChecks(c: Option<Coverage>) {
    c.Some? ==>
      Sha256Hex(c.value.response) && (c.value.mode == "scheduled_capture" || c.value.mode == "historical_backfill")
  }

  predicate TableAccepts(s: StoredOutcome) {
    var r := s.result;
    && StatusChecks(r)
    && Positive(r.values.reference) && PositivePrices(r.values.premarket) && PositivePrices(r.values.regular)
    && TallyChecks(r.regular) && TallyChecks(r.premarket) && TallyChecks(r.following)
    && IdentityChecks(s.regular) && IdentityChecks(s.premarket) && IdentityChecks(s.following)
  }

  ghost predicate PositiveLows(bars: seq<Bar>) {
    && (forall i :: 0 <= i < |bars| ==> bars[i].low > 0.0)
    && (bars != [] ==> exists i :: 0 <= i < |bars| && bars[i].high > 0.0)
  }

  ghost predicate PositiveReading(first: Option<Bar>, last: Option<Bar>, bars: seq<Bar>) {
    PositiveLows(bars) && (first.Some? ==> first.value.open > 0.0) && (last.Some? ==> last.value.close > 0.0)
  }

  /** Every price the engine reads out of the evidence is positive. */
  ghost predicate PositiveWhereRead(e: Evidence) {
    && (ClosingBar(e.regular).Some? ==> ClosingBar(e.regular).value.close > 0.0)
    && PositiveReading(FirstBar(BarsOf(e.premarket)), LastBar(BarsOf(e.premarket)), BarsOf(e.premarket))
    && PositiveReading(OpeningBar(e.following), ClosingBar(e.following), BarsOf(e.following))
  }

  ghost predicate SaneCoverage(c: Option<Coverage>) {
    c.Some? ==> 0 <= c.value.observed <= c.value.expected && c.value.expected > 0 && IdentityChecks(c)
  }

  lemma ExtremesPositive(bars: seq<Bar>)
    ensures Positive(Highest(bars)) && Positive(Lowest(bars)) <==> PositiveLows(bars)
  {
    if bars != [] {
      var highs, lows := Map(bars, HighOf()), Map(bars, LowOf());
      MapAt(bars, HighOf());
      MapAt(bars, LowOf());
      MaxOfGreatest(highs);
      MinOfLeast(lows);
      var i :| 0 <= i < |highs| && highs[i] == MaxOf(highs);
      assert bars[i].high == MaxOf(highs);
      var j :| 0 <= j < |lows| && lows[j] == MinOf(lows);
      assert bars[j].low == MinOf(lows);
      if MaxOf(highs) <= 0.0 {
        assert forall k :: 0 <= k < |bars| ==> bars[k].high == highs[k] <= MaxOf(highs);
      }
      if MinOf(lows) > 0.0 {
        assert forall k :: 0 <= k < |bars| ==> bars[k].low == lows[k] >= MinOf(lows);
      }
    }
  }

  lemma TallyExactly(c: Option<Coverage>, minutes: int)
    requires minutes > 0 && (c.Some? ==> c.value.expected > 0)
    ensures TallyChecks(TallyOf(c, minutes)) && IdentityChecks(c) <==> SaneCoverage(c)
  {
    if c.Some? {
      var x, n := c.value.observed as real / c.value.expected as real, c.value.expected as real;
      assert c.value.observed as real == x * n;
    }
  }

  lemma PricesExactly(e: Evidence)
    requires Computable(e)
    ensures var v := ValuesOf(e);
            Positive(v.reference) && PositivePrices(v.premarket) && PositivePrices(v.regular) <==> PositiveWhereRead(e)
  {
    ExtremesPositive(BarsOf(e.premarket));
    ExtremesPositive(BarsOf(e.following));
  }

  ghost predicate SanePhases(e: Evidence) {
    SaneCoverage(e.regular) && SaneCoverage(e.premarket) && SaneCoverage(e.following)
  }

  /** Evidence whose final row can be stored. */
  ghost predicate Acceptable(e: Evidence) {
    PositiveWhereRead(e) && SanePhases(e)
  }

  lemma CleanPositive(c: Coverage)
    requires CleanPhase(c)
    ensures PositiveLows(BarsOf(Some(c)))
    ensures forall b :: b in BarsOf(Some(c)) ==> b.open > 0.0 && b.close > 0.0
  {
    var bars := BarsOf(Some(c));
    forall b | b in bars ensures SoundPrices(b) {
      KeptBarSound(c, b);
    }
    forall i | 0 <= i < |bars| ensures bars[i].low > 0.0 && bars[i].high > 0.0 {
      assert bars[i] in bars;
    }
    if bars != [] {
      assert bars[0].high > 0.0;
    }
  }

  lemma QualifiedPositive(e: Evidence)
    requires Qualifies(e)
    ensures PositiveWhereRead(e)
  {
    CleanPositive(e.regular.value);
    CleanPositive(e.premarket.value);
    CleanPositive(e.following.value);
  }

  /** The table accepts a final row exactly when every price read is positive and every
      coverage row counts sanely. An invalid non-positive price makes the engine say
      "insufficient data", and makes the row impossible to store; a complete outcome has none. */
  lemma AcceptedExactly(e: Evidence, now: int)
    requires Computable(e) && StatusAt(e, now) != NotYetAvailable
    ensures TableAccepts(BuildOutcome(e, now)) <==> Acceptable(e)
    ensures StatusAt(e, now) == CompleteOutcome ==> (TableAccepts(BuildOutcome(e, now)) <==> SanePhases(e))
  {
    StatusCheckHolds(e, now);
    StatusOverTime(e, now);
    PricesExactly(e);
    TallyExactly(e.regular, 390);
    TallyExactly(e.premarket, 150);
    TallyExactly(e.following, 390);
    if StatusAt(e, now) == CompleteOutcome {
      CompleteExactly(e);
      QualifiedPositive(e);
    }
  }

  function Premarket(low: real): Evidence {
    Evidence("AAA", 0, 0, None,
             Some(Coverage("following_premarket", 1, "premarket", 0, 60, 1, 1, "gateway", 0, HASH, "scheduled_capture",
                           "", "", [],
                           [Bar(0, 1.0, 1.0, low, 1.0, Some(1))])),
             None)
  }

  lemma PremarketRead(low: real)
    ensures Computable(Premarket(low)) && BarsOf(Premarket(low).premarket) == Premarket(low).premarket.value.bars
    ensures SaneCoverage(Premarket(low).premarket)
  {
    var bars := Premarket(low).premarket.value.bars;
    DeduplicatedLossless(bars);
    DeduplicatedAscending(bars);
    assert Deduplicated(bars)[0] in bars;
    assert Deduplicated(bars) == [bars[0]];
  }

  /** A single premarket bar with a low of zero: every coverage row is sane and the status is
      final, and the table still refuses the row. */
  lemma ZeroLowRefused() returns (e: Evidence, now: int)
    ensures Computable(e) && StatusAt(e, now) == InsufficientData
    ensures SanePhases(e)
    ensures !TableAccepts(BuildOutcome(e, now))
  {
    e, now := Premarket(0.0), 600;
    PremarketRead(0.0);
    CompleteExactly(e);
    assert BarsOf(e.premarket)[0].low == 0.0;
    AcceptedExactly(e, now);
  }

  // ------------------------------------------------------------------ a persistence run

  type ReadyEvidence = e: Evidence | Computable(e) witness Evidence("", 0, 0, None, None, None)

  function Build(now: int): ReadyEvidence -> StoredOutcome {
    (e: ReadyEvidence) => BuildOutcome(e, now)
  }

  function IsFinal(): StoredOutcome -> bool {
    (s: StoredOutcome) => !s.result.status.NotYetAvailable?
  }

  function HasStatus(status: Status): StoredOutcome -> bool {
    (s: StoredOutcome) => s.result.status == status
  }

  predicate Storable(rows: seq<StoredOutcome>) {
    forall i :: 0 <= i < |rows| ==> TableAccepts(rows[i])
  }

  datatype Summary = Summary(
    scanned: nat, complete: nat, insufficient: nat, pending: nat, inserted: nat, conflicted: int,
    rows: seq<StoredOutcome>)

  datatype RunResult = Persisted(summary: Summary) | Aborted

  function FinalRows(evidence: seq<ReadyEvidence>, now: int): seq<StoredOutcome> {
    Filter(Map(evidence, Build(now)), IsFinal())
  }

  /** Every piece of evidence that is final by now can be stored. */
  ghost predicate AllAcceptable(evidence: seq<ReadyEvidence>, now: int) {
    forall i :: 0 <= i < |evidence| && StatusAt(evidence[i], now) != NotYetAvailable ==> Acceptable(evidence[i])
  }

  /** Where evidence with a final status sits among the final rows. */
  lemma FinalPlace(evidence: seq<ReadyEvidence>, now: int, i: nat) returns (k: nat)
    requires i < |evidence| && StatusAt(evidence[i], now) != NotYetAvailable
    ensures k < |FinalRows(evidence, now)| && FinalRows(evidence, now)[k] == BuildOutcome(evidence[i], now)
  {
    var built, final := Map(evidence, Build(now)), FinalRows(evidence, now);
    MapAt(evidence, Build(now));
    FilterMembers(built, IsFinal());
    var row := Build(now)(evidence[i]);
    assert IsFinal()(row);
    assert row in final by {
      assert built[i] == row;
    }
    k :| 0 <= k < |final| && final[k] == row;
  }

  /** The evidence a final row was built from. */
  lemma FinalSource(evidence: seq<ReadyEvidence>, now: int, k: nat) returns (i: nat)
    requires k < |FinalRows(evidence, now)|
    ensures i < |evidence| && StatusAt(evidence[i], now) != NotYetAvailable
    ensures FinalRows(evidence, now)[k] == BuildOutcome(evidence[i], now)
  {
    i := FilterMapSource(evidence, Build(now), IsFinal(), k);
  }

  lemma StorableExactly(evidence: seq<ReadyEvidence>, now: int)
    ensures Storable(FinalRows(evidence, now)) <==> AllAcceptable(evidence, now)
  {
    var final := FinalRows(evidence, now);
    if Storable(final) {
      forall i | 0 <= i < |evidence| && StatusAt(evidence[i], now) != NotYetAvailable ensures Acceptable(evidence[i]) {
        var k := FinalPlace(evidence, now, i);
        StoredAcceptable(final[k], evidence[i], now);
      }
    }
    if AllAcceptable(evidence, now) {
      forall k | 0 <= k < |final| ensures TableAccepts(final[k]) {
        var i := FinalSource(evidence, now, k);
        StoredAcceptable(final[k], evidence[i], now);
      }
    }
  }

  lemma StoredAcceptable(row: StoredOutcome, e: ReadyEvidence, now: int)
    requires row == BuildOutcome(e, now) && StatusAt(e, now) != NotYetAvailable
    ensures TableAccepts(row) <==> Acceptable(e)
  {
    AcceptedExactly(e, now);
  }

  /** The table after a run: final rows one by one, or nothing when the transaction fails. */
  function TableAfter(table: seq<Row>, evidence: seq<ReadyEvidence>, dry: bool, now: int): seq<Row> {
    var final := FinalRows(evidence, now);
    if dry || !Storable(final) then table else InsertAll(table, Map(final, Cells()))
  }

  class OutcomeTable {
    var rows: seq<Row>

    constructor ()
      ensures rows == []
    {
      rows := [];
    }

    /** Runs one insert statement and counts the rows it returned. */
    method Execute(groups: seq<seq<nat>>, args: Row) returns (inserted: nat)
      modifies this
      ensures rows == InsertAll(old(rows), Resolve(groups, args))
      ensures |rows| == |old(rows)| + inserted
    {
      var offered := Resolve(groups, args);
      inserted := 0;
      for i := 0 to |offered|
        invariant rows == InsertAll(old(rows), offered[..i])
        invariant |rows| == |old(rows)| + inserted
      {
        assert offered[..i + 1][..i] == offered[..i];
        if !HasKey(rows, offered[i]) {
          rows := rows + [offered[i]];
          inserted := inserted + 1;
        }
      }
      assert offered[..|offered|] == offered;
    }

    /** Sends one batch: its cells in row order, its placeholders numbered to match. */
    method InsertBatch(batch: seq<StoredOutcome>) returns (inserted: nat)
      requires 1 <= |batch| <= BATCH
      modifies this
      ensures rows == InsertAll(old(rows), Map(batch, Cells()))
      ensures |rows| == |old(rows)| + inserted
    {
      var values: Row := [];
      ghost var wanted := Map(batch, Cells());
      for i := 0 to |batch|
        invariant values == Flatten(Map(batch[..i], Cells()))
        invariant rows == old(rows)
      {
        MapNext(batch, Cells(), i);
        ghost var done := Map(batch[..i], Cells());
        assert (done + [Cells()(batch[i])])[..i] == done;
        values := values + Cells()(batch[i]);
      }
      assert batch[..|batch|] == batch;
      CellsFullWidth(batch);
      var groups := InsertSql(|batch|);
      PlaceholdersGiveRows(groups.value, wanted);
      inserted := Execute(groups.value, values);
    }

    method InsertBatches(final: seq<StoredOutcome>) returns (inserted: nat)
      modifies this
      ensures rows == InsertAll(old(rows), Map(final, Cells()))
      ensures |rows| == |old(rows)| + inserted
    {
      inserted := 0;
      var start: nat := 0;
      assert final[..0] == [];
      while start < |final|
        invariant start <= |final|
        invariant rows == InsertAll(old(rows), Map(final[..start], Cells()))
        invariant |rows| == |old(rows)| + inserted
        decreases |final| - start
      {
        var end := if start + BATCH < |final| then start + BATCH else |final|;
        NextBatch(old(rows), final, start, end);
        var count := InsertBatch(final[start..end]);
        inserted := inserted + count;
        start := end;
      }
      assert final[..|final|] == final;
    }

    method Persist(evidence: seq<ReadyEvidence>, dry: bool, now: int) returns (r: RunResult)
      modifies this
      ensures rows == TableAfter(old(rows), evidence, dry, now)
      ensures r.Aborted? <==> !dry && !AllAcceptable(evidence, now)
      ensures r.Persisted? ==>
        && r.summary.rows == Map(evidence, Build(now))
        && |rows| == |old(rows)| + r.summary.inserted
        && r.summary.scanned == |evidence| == r.summary.complete + r.summary.insufficient + r.summary.pending
        && r.summary.inserted + r.summary.conflicted == if dry then 0 else r.summary.complete + r.summary.insufficient
    {
      var built := Map(evidence, Build(now));
      var final := Filter(built, IsFinal());
      StatusCounts(built);
      StorableExactly(evidence, now);
      var inserted: nat := 0;
      if !dry {
        if !Storable(final) {
          return Aborted;
        }
        inserted := InsertBatches(final);
      }
      r := Persisted(Summary(|built|, |Filter(built, HasStatus(CompleteOutcome))|,
                             |Filter(built, HasStatus(InsufficientData))|,
                             |Filter(built, HasStatus(NotYetAvailable))|, inserted,
                             if dry then 0 else |final| - inserted, built));
    }
  }

  lemma CellsFullWidth(batch: seq<StoredOutcome>)
    ensures FullWidth(Map(batch, Cells()))
  {
    MapAt(batch, Cells());
    forall i | 0 <= i < |batch| ensures |Map(batch, Cells())[i]| == WIDTH {
      KeyColumns(batch[i]);
    }
  }

  lemma NextBatch(table: seq<Row>, final: seq<StoredOutcome>, start: nat, end: nat)
    requires start <= end <= |final|
    ensures InsertAll(InsertAll(table, Map(final[..start], Cells())), Map(final[start..end], Cells()))
            == InsertAll(table, Map(final[..end], Cells()))
  {
    assert final[..end] == final[..start] + final[start..end];
    MapConcat(final[..start], final[start..end], Cells());
    InsertAllConcat(table, Map(final[..start], Cells()), Map(final[start..end], Cells()));
  }

  lemma {:induction false} StatusCounts(rows: seq<StoredOutcome>)
    ensures |Filter(rows, IsFinal())|
            == |Filter(rows, HasStatus(CompleteOutcome))| + |Filter(rows, HasStatus(InsufficientData))|
    ensures |rows| == |Filter(rows, IsFinal())| + |Filter(rows, HasStatus(NotYetAvailable))|
  {
    if rows != [] {
      StatusCounts(rows[1..]);
    }
  }

  // ------------------------------------------------------------------ later runs

  /** Evidence of `later` that was already final, under the same digest, when `earlier` ran. */
  ghost predicate AlreadyFinal(earlier: seq<ReadyEvidence>, now: int, e: Evidence) {
    exists i :: 0 <= i < |earlier| && Preimage(earlier[i]) == Preimage(e)
        && StatusAt(earlier[i], now) != NotYetAvailable
  }

  lemma SameDigestSameKey(a: Evidence, b: Evidence, now: int, later: int)
    requires Computable(a) && Computable(b) && Preimage(a) == Preimage(b)
    ensures RowKey(Cells()(BuildOutcome(a, now))) == RowKey(Cells()(BuildOutcome(b, later)))
  {
    KeyColumns(BuildOutcome(a, now));
    KeyColumns(BuildOutcome(b, later));
    assert Preimage(a).symbol == Preimage(b).symbol && Preimage(a).date == Preimage(b).date;
  }

  lemma FinalRowStored(table: seq<Row>, earlier: seq<ReadyEvidence>, now: int, i: nat)
    requires i < |earlier| && StatusAt(earlier[i], now) != NotYetAvailable && Storable(FinalRows(earlier, now))
    ensures HasKey(TableAfter(table, earlier, false, now), Cells()(BuildOutcome(earlier[i], now)))
  {
    var k := FinalRowAt(earlier, now, i);
    var offered := Map(FinalRows(earlier, now), Cells());
    InsertAllKeeps(table, offered);
    assert HasKey(InsertAll(table, offered), offered[k]);
  }

  /** Where evidence with a final status sits among the rows offered. */
  lemma FinalRowAt(evidence: seq<ReadyEvidence>, now: int, i: nat) returns (k: nat)
    requires i < |evidence| && StatusAt(evidence[i], now) != NotYetAvailable
    ensures k < |FinalRows(evidence, now)|
    ensures Map(FinalRows(evidence, now), Cells())[k] == Cells()(BuildOutcome(evidence[i], now))
  {
    k := FinalPlace(evidence, now, i);
    MapAt(FinalRows(evidence, now), Cells());
  }

  lemma PrefixKeys(table: seq<Row>, longer: seq<Row>, row: Row)
    requires |table| <= |longer| && longer[..|table|] == table
    ensures HasKey(table, row) ==> HasKey(longer, row)
  {
    forall i | 0 <= i < |table| ensures table[i] == longer[i] {
      assert longer[..|table|][i] == longer[i];
    }
  }

  lemma {:induction false} AddedKeysNew(table: seq<Row>, rows: seq<Row>, k: nat)
    requires |table| <= k < |InsertAll(table, rows)|
    ensures !HasKey(table, InsertAll(table, rows)[k])
  {
    if rows != [] {
      var before, last := InsertAll(table, rows[..|rows| - 1]), rows[|rows| - 1];
      InsertAllKeeps(table, rows[..|rows| - 1]);
      if k < |before| {
        AddedKeysNew(table, rows[..|rows| - 1], k);
      } else {
        PrefixKeys(table, before, last);
      }
    }
  }

  lemma AlreadyFinalStored(table: seq<Row>, earlier: seq<ReadyEvidence>, now: int, e: ReadyEvidence, later: int)
    requires Storable(FinalRows(earlier, now)) && AlreadyFinal(earlier, now, e)
    ensures HasKey(TableAfter(table, earlier, false, now), Cells()(BuildOutcome(e, later)))
  {
    var i: nat :| i < |earlier| && Preimage(earlier[i]) == Preimage(e) && StatusAt(earlier[i], now) != NotYetAvailable;
    FinalRowStored(table, earlier, now, i);
    SameDigestSameKey(earlier[i], e, now, later);
  }

  datatype OutcomeRun = OutcomeRun(evidence: seq<ReadyEvidence>, dry: bool, now: int)

  function AfterRuns(table: seq<Row>, runs: seq<OutcomeRun>): seq<Row> {
    if runs == [] then table
    else
      var last := runs[|runs| - 1];
      TableAfter(AfterRuns(table, runs[..|runs| - 1]), last.evidence, last.dry, last.now)
  }

  /** Rows were only added, none of them under the key of `row`. */
  ghost predicate AddsOtherKeys(table: seq<Row>, after: seq<Row>, row: Row) {
    && |table| <= |after| && after[..|table|] == table
    && forall k :: |table| <= k < |after| ==> RowKey(after[k]) != RowKey(row)
  }

  lemma AddsTransitive(a: seq<Row>, b: seq<Row>, c: seq<Row>, row: Row)
    requires AddsOtherKeys(a, b, row) && AddsOtherKeys(b, c, row)
    ensures AddsOtherKeys(a, c, row)
  {
    assert c[..|a|] == c[..|b|][..|a|];
    forall k | |a| <= k < |c| ensures RowKey(c[k]) != RowKey(row) {
      assert k < |b| ==> c[k] == c[..|b|][k];
    }
  }

  lemma RunAddsOtherKeys(table: seq<Row>, evidence: seq<ReadyEvidence>, dry: bool, now: int, row: Row)
    requires HasKey(table, row)
    ensures AddsOtherKeys(table, TableAfter(table, evidence, dry, now), row)
  {
    var after := TableAfter(table, evidence, dry, now);
    RunKeepsRows(table, evidence, dry, now);
    forall k | |table| <= k < |after| ensures RowKey(after[k]) != RowKey(row) {
      AddedKeysNew(table, Map(FinalRows(evidence, now), Cells()), k);
    }
  }

  /** A stored row stays in place over any runs, and no run adds another one with its key. */
  lemma {:induction false} RunsAddOtherKeys(table: seq<Row>, runs: seq<OutcomeRun>, row: Row)
    requires HasKey(table, row)
    ensures AddsOtherKeys(table, AfterRuns(table, runs), row)
  {
    if runs != [] {
      var last, before := runs[|runs| - 1], AfterRuns(table, runs[..|runs| - 1]);
      RunsAddOtherKeys(table, runs[..|runs| - 1], row);
      PrefixKeys(table, before, row);
      RunAddsOtherKeys(before, last.evidence, last.dry, last.now, row);
      AddsTransitive(table, before, AfterRuns(table, runs), row);
    }
  }

  /** A run on nothing but evidence that was already final. */
  ghost predicate OnlyFinal(earlier: seq<ReadyEvidence>, now: int, run: OutcomeRun) {
    forall j :: 0 <= j < |run.evidence| ==> AlreadyFinal(earlier, now, run.evidence[j])
  }

  lemma SettledRow(table: seq<Row>, earlier: seq<ReadyEvidence>, now: int, stored: seq<Row>, run: OutcomeRun, k: nat)
    requires Storable(FinalRows(earlier, now)) && stored == TableAfter(table, earlier, false, now)
    requires OnlyFinal(earlier, now, run) && k < |Map(FinalRows(run.evidence, run.now), Cells())|
    ensures HasKey(stored, Map(FinalRows(run.evidence, run.now), Cells())[k])
  {
    var j := OfferedFrom(run.evidence, run.now, k);
    AlreadyFinalStored(table, earlier, now, run.evidence[j], run.now);
  }

  lemma NothingOffered(table: seq<Row>, evidence: seq<ReadyEvidence>, dry: bool, now: int, offered: seq<Row>)
    requires offered == Map(FinalRows(evidence, now), Cells())
    requires forall k :: 0 <= k < |offered| ==> HasKey(table, offered[k])
    ensures TableAfter(table, evidence, dry, now) == table
  {
    NothingNew(table, offered);
  }

  lemma SettledRun(table: seq<Row>, earlier: seq<ReadyEvidence>, now: int, stored: seq<Row>, run: OutcomeRun)
    requires Storable(FinalRows(earlier, now)) && stored == TableAfter(table, earlier, false, now)
    requires OnlyFinal(earlier, now, run)
    ensures TableAfter(stored, run.evidence, run.dry, run.now) == stored
  {
    var offered := Map(FinalRows(run.evidence, run.now), Cells());
    forall k | 0 <= k < |offered| ensures HasKey(stored, offered[k]) {
      SettledRow(table, earlier, now, stored, run, k);
    }
    NothingOffered(stored, run.evidence, run.dry, run.now, offered);
  }

  /** Runs on evidence that was already final leave the table as it is. */
  lemma {:induction false} SettledRuns(
    table: seq<Row>, earlier: seq<ReadyEvidence>, now: int, stored: seq<Row>, runs: seq<OutcomeRun>)
    requires Storable(FinalRows(earlier, now)) && stored == TableAfter(table, earlier, false, now)
    requires forall i :: 0 <= i < |runs| ==> OnlyFinal(earlier, now, runs[i])
    ensures AfterRuns(stored, runs) == stored
  {
    if runs != [] {
      SettledRuns(table, earlier, now, stored, runs[..|runs| - 1]);
      SettledRun(table, earlier, now, stored, runs[|runs| - 1]);
    }
  }

  /** No later run, at any time and whatever else it is given, adds a row for evidence that was
      already final under the same digest. */
  lemma LaterRunAddsNothing(table: seq<Row>, earlier: seq<ReadyEvidence>, now: int, runs: seq<OutcomeRun>)
    requires Storable(FinalRows(earlier, now))
    ensures var stored := TableAfter(table, earlier, false, now);
            var after := AfterRuns(stored, runs);
            forall k, e: ReadyEvidence, later :: |stored| <= k < |after| && AlreadyFinal(earlier, now, e) ==>
              RowKey(after[k]) != RowKey(Cells()(BuildOutcome(e, later)))
    ensures (forall i :: 0 <= i < |runs| ==> OnlyFinal(earlier, now, runs[i])) ==>
              AfterRuns(TableAfter(table, earlier, false, now), runs) == TableAfter(table, earlier, false, now)
  {
    var stored := TableAfter(table, earlier, false, now);
    var after := AfterRuns(stored, runs);
    forall k, e: ReadyEvidence, later | |stored| <= k < |after| && AlreadyFinal(earlier, now, e)
      ensures RowKey(after[k]) != RowKey(Cells()(BuildOutcome(e, later)))
    {
      AlreadyFinalStored(table, earlier, now, e, later);
      RunsAddOtherKeys(stored, runs, Cells()(BuildOutcome(e, later)));
    }
    if forall i :: 0 <= i < |runs| ==> OnlyFinal(earlier, now, runs[i]) {
      SettledRuns(table, earlier, now, stored, runs);
    }
  }

  /** The evidence an offered row was built from. */
  lemma OfferedFrom(evidence: seq<ReadyEvidence>, now: int, k: nat) returns (j: nat)
    requires k < |Map(FinalRows(evidence, now), Cells())|
    ensures j < |evidence|
    ensures Map(FinalRows(evidence, now), Cells())[k] == Cells()(BuildOutcome(evidence[j], now))
  {
    j := FinalSource(evidence, now, k);
    MapAt(FinalRows(evidence, now), Cells());
  }

  /** Nothing stored is ever changed or removed by a run, and keys stay unique. */
  lemma RunKeepsRows(table: seq<Row>, evidence: seq<ReadyEvidence>, dry: bool, now: int)
    ensures && |table| <= |TableAfter(table, evidence, dry, now)|
            && TableAfter(table, evidence, dry, now)[..|table|] == table
    ensures DistinctKeys(table) ==> DistinctKeys(TableAfter(table, evidence, dry, now))
  {
    InsertAllKeeps(table, Map(FinalRows(evidence, now), Cells()));
  }
}
