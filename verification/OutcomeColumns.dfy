/** The columns of a stored outcome: the cell under each name is the value the name promises. */
module OutcomeColumns {
  import opened Sequences
  import opened Outcomes
  import opened OutcomeStore

  datatype Column =
    | Symbol | EarningsDate | OutcomeVersion | AlgorithmName | AnalysisStatus | AnalysisStatusReason
    | ReferenceClose | ReferenceCloseTs | PremarketFirst | PremarketHigh | PremarketLow | PremarketLast
    | RegularOpen | RegularHigh | RegularLow | RegularClose | PremarketFirstReturn | PremarketHighReturn
    | PremarketLowReturn | PremarketLastReturn | RegularOpenReturn | RegularHighReturn | RegularLowReturn
    | RegularCloseReturn | RegularReturn5m | RegularReturn30m | RegularReturn60m | OvernightGapReturn
    | FollowingSessionCloseReturn | RegularObservedMinutes | RegularExpectedMinutes | RegularCoverageRatio
    | PremarketObservedMinutes | PremarketExpectedMinutes | PremarketCoverageRatio
    | FollowingRegularObservedMinutes | FollowingRegularExpectedMinutes | FollowingRegularCoverageRatio
    | EarningsRegularResponseSha256 | EarningsRegularCollectionMode | FollowingPremarketResponseSha256
    | FollowingPremarketCollectionMode | FollowingRegularResponseSha256 | FollowingRegularCollectionMode
    | CoverageIdentities | SourceEvidenceSha256 | Parameters | OutcomeValues | MissingFields | DataQualityFlags
    | ComputedAt

  // The columns of the insert statement, group by group in its order.

  const IDENTITY_COLUMNS: seq<Column> :=
    [Symbol, EarningsDate, OutcomeVersion, AlgorithmName, AnalysisStatus, AnalysisStatusReason]
  const REFERENCE_COLUMNS: seq<Column> :=
    [ReferenceClose, ReferenceCloseTs]
  const PREMARKET_COLUMNS: seq<Column> :=
    [PremarketFirst, PremarketHigh, PremarketLow, PremarketLast]
  const REGULAR_COLUMNS: seq<Column> :=
    [RegularOpen, RegularHigh, RegularLow, RegularClose]
  const PREMARKET_RETURN_COLUMNS: seq<Column> :=
    [PremarketFirstReturn, PremarketHighReturn, PremarketLowReturn, PremarketLastReturn]
  const REGULAR_RETURN_COLUMNS: seq<Column> :=
    [RegularOpenReturn, RegularHighReturn, RegularLowReturn, RegularCloseReturn]
  const HORIZON_COLUMNS: seq<Column> :=
    [RegularReturn5m, RegularReturn30m, RegularReturn60m, OvernightGapReturn, FollowingSessionCloseReturn]
  const REGULAR_COUNT_COLUMNS: seq<Column> :=
    [RegularObservedMinutes, RegularExpectedMinutes, RegularCoverageRatio]
  const PREMARKET_COUNT_COLUMNS: seq<Column> :=
    [PremarketObservedMinutes, PremarketExpectedMinutes, PremarketCoverageRatio]
  const FOLLOWING_COUNT_COLUMNS: seq<Column> :=
    [FollowingRegularObservedMinutes, FollowingRegularExpectedMinutes, FollowingRegularCoverageRatio]
  const REGULAR_COVERAGE_COLUMNS: seq<Column> :=
    [EarningsRegularResponseSha256, EarningsRegularCollectionMode]
  const PREMARKET_COVERAGE_COLUMNS: seq<Column> :=
    [FollowingPremarketResponseSha256, FollowingPremarketCollectionMode]
  const FOLLOWING_COVERAGE_COLUMNS: seq<Column> :=
    [FollowingRegularResponseSha256, FollowingRegularCollectionMode]
  const COVERAGE_DOCUMENT_COLUMNS: seq<Column> :=
    [CoverageIdentities]
  const CLOSING_COLUMNS: seq<Column> :=
    [SourceEvidenceSha256, Parameters, OutcomeValues, MissingFields, DataQualityFlags, ComputedAt]

  const VALUE_COLUMNS: seq<Column> :=
    REFERENCE_COLUMNS + PREMARKET_COLUMNS + REGULAR_COLUMNS + PREMARKET_RETURN_COLUMNS + REGULAR_RETURN_COLUMNS
    + HORIZON_COLUMNS

  const MIDDLE_COLUMNS: seq<Column> :=
    VALUE_COLUMNS
    + REGULAR_COUNT_COLUMNS + PREMARKET_COUNT_COLUMNS + FOLLOWING_COUNT_COLUMNS
    + REGULAR_COVERAGE_COLUMNS + PREMARKET_COVERAGE_COLUMNS + FOLLOWING_COVERAGE_COLUMNS + COVERAGE_DOCUMENT_COLUMNS

  const INSERT_COLUMNS: seq<Column> := IDENTITY_COLUMNS + MIDDLE_COLUMNS + CLOSING_COLUMNS

  function StatusName(s: Status): string {
    if s.CompleteOutcome? then "complete" else if s.InsufficientData? then "insufficient_data" else "not_yet_available"
  }

  function Real(x: Option<real>): Cell {
    if x.Some? then Number(x.value) else Empty
  }

  /** The three coverage rows, without their counts, flags and bars. */
  function IdentitiesOf(s: StoredOutcome): Cell {
    IdentityDocument([IdentityOf(s.regular), IdentityOf(s.premarket), IdentityOf(s.following)])
  }

  function HorizonCells(v: Values): Row {
    [HorizonCell(v, 5), HorizonCell(v, 30), HorizonCell(v, 60), NumberCell(v.regularReturns.first),
     NumberCell(v.regularReturns.last)]
  }

  /** What a column holds of an outcome. */
  function ValueIn(s: StoredOutcome, column: Column): Cell {
    var r, v := s.result, s.result.values;
    match column
    case Symbol => Text(r.symbol)
    case EarningsDate => Whole(r.date)
    case OutcomeVersion => Text("following-session-v2")
    case AlgorithmName => Text("following_session_observation")
    case AnalysisStatus => Text(StatusName(r.status))
    case AnalysisStatusReason => if r.status.CompleteOutcome? then Empty else Text(StatusName(r.status))
    case ReferenceClose => Real(v.reference)
    case ReferenceCloseTs => if v.referenceTs.Some? then Whole(v.referenceTs.value) else Empty
    case PremarketFirst => Real(v.premarket.first)
    case PremarketHigh => Real(v.premarket.high)
    case PremarketLow => Real(v.premarket.low)
    case PremarketLast => Real(v.premarket.last)
    case RegularOpen => Real(v.regular.first)
    case RegularHigh => Real(v.regular.high)
    case RegularLow => Real(v.regular.low)
    case RegularClose => Real(v.regular.last)
    case PremarketFirstReturn => Real(v.premarketReturns.first)
    case PremarketHighReturn => Real(v.premarketReturns.high)
    case PremarketLowReturn => Real(v.premarketReturns.low)
    case PremarketLastReturn => Real(v.premarketReturns.last)
    case RegularOpenReturn => Real(v.regularReturns.first)
    case RegularHighReturn => Real(v.regularReturns.high)
    case RegularLowReturn => Real(v.regularReturns.low)
    case RegularCloseReturn => Real(v.regularReturns.last)
    case RegularReturn5m => if 5 in v.horizons then Real(v.horizons[5]) else Empty
    case RegularReturn30m => if 30 in v.horizons then Real(v.horizons[30]) else Empty
    case RegularReturn60m => if 60 in v.horizons then Real(v.horizons[60]) else Empty
    case OvernightGapReturn => Real(v.regularReturns.first)
    case FollowingSessionCloseReturn => Real(v.regularReturns.last)
    case RegularObservedMinutes => Whole(r.regular.observed)
    case RegularExpectedMinutes => Whole(r.regular.expected)
    case RegularCoverageRatio => Number(r.regular.ratio)
    case PremarketObservedMinutes => Whole(r.premarket.observed)
    case PremarketExpectedMinutes => Whole(r.premarket.expected)
    case PremarketCoverageRatio => Number(r.premarket.ratio)
    case FollowingRegularObservedMinutes => Whole(r.following.observed)
    case FollowingRegularExpectedMinutes => Whole(r.following.expected)
    case FollowingRegularCoverageRatio => Number(r.following.ratio)
    case EarningsRegularResponseSha256 => if s.regular.Some? then Text(s.regular.value.response) else Empty
    case EarningsRegularCollectionMode => if s.regular.Some? then Text(s.regular.value.mode) else Empty
    case FollowingPremarketResponseSha256 => if s.premarket.Some? then Text(s.premarket.value.response) else Empty
    case FollowingPremarketCollectionMode => if s.premarket.Some? then Text(s.premarket.value.mode) else Empty
    case FollowingRegularResponseSha256 => if s.following.Some? then Text(s.following.value.response) else Empty
    case FollowingRegularCollectionMode => if s.following.Some? then Text(s.following.value.mode) else Empty
    case CoverageIdentities => IdentitiesOf(s)
    case SourceEvidenceSha256 => DigestOf(r.digest)
    case Parameters => ParametersDocument(r.availableAfter)
    case OutcomeValues => ValuesDocument(v)
    case MissingFields => Texts(r.missing)
    case DataQualityFlags => Texts(r.flags)
    case ComputedAt => Whole(s.computedAt)
  }

  /** Each cell is the value of the column it stands under. */
  ghost predicate Under(s: StoredOutcome, cells: Row, columns: seq<Column>) {
    |cells| == |columns| && forall i :: 0 <= i < |cells| ==> cells[i] == ValueIn(s, columns[i])
  }

  lemma Beside(s: StoredOutcome, a: Row, left: seq<Column>, b: Row, right: seq<Column>)
    requires Under(s, a, left) && Under(s, b, right)
    ensures Under(s, a + b, left + right)
  {
  }

  lemma Under1(s: StoredOutcome, cells: Row, columns: seq<Column>)
    requires |cells| == |columns| == 1
    requires cells[0] == ValueIn(s, columns[0])
    ensures Under(s, cells, columns)
  {
  }

  lemma Under2(s: StoredOutcome, cells: Row, columns: seq<Column>)
    requires |cells| == |columns| == 2
    requires cells[0] == ValueIn(s, columns[0]) && cells[1] == ValueIn(s, columns[1])
    ensures Under(s, cells, columns)
  {
  }

  lemma Under3(s: StoredOutcome, cells: Row, columns: seq<Column>)
    requires |cells| == |columns| == 3
    requires cells[0] == ValueIn(s, columns[0]) && cells[1] == ValueIn(s, columns[1])
    requires cells[2] == ValueIn(s, columns[2])
    ensures Under(s, cells, columns)
  {
  }

  lemma Under4(s: StoredOutcome, cells: Row, columns: seq<Column>)
    requires |cells| == |columns| == 4
    requires cells[0] == ValueIn(s, columns[0]) && cells[1] == ValueIn(s, columns[1])
    requires cells[2] == ValueIn(s, columns[2]) && cells[3] == ValueIn(s, columns[3])
    ensures Under(s, cells, columns)
  {
  }

  lemma Under5(s: StoredOutcome, cells: Row, columns: seq<Column>)
    requires |cells| == |columns| == 5
    requires cells[0] == ValueIn(s, columns[0]) && cells[1] == ValueIn(s, columns[1])
    requires cells[2] == ValueIn(s, columns[2]) && cells[3] == ValueIn(s, columns[3])
    requires cells[4] == ValueIn(s, columns[4])
    ensures Under(s, cells, columns)
  {
  }

  lemma Under6(s: StoredOutcome, cells: Row, columns: seq<Column>)
    requires |cells| == |columns| == 6
    requires cells[0] == ValueIn(s, columns[0]) && cells[1] == ValueIn(s, columns[1])
    requires cells[2] == ValueIn(s, columns[2]) && cells[3] == ValueIn(s, columns[3])
    requires cells[4] == ValueIn(s, columns[4]) && cells[5] == ValueIn(s, columns[5])
    ensures Under(s, cells, columns)
  {
  }

  lemma IdentityUnder(s: StoredOutcome)
    ensures Under(s, IdentityCells(s.result), IDENTITY_COLUMNS)
  {
    Under6(s, IdentityCells(s.result), IDENTITY_COLUMNS);
  }

  lemma ReferenceUnder(s: StoredOutcome)
    ensures Under(s, [NumberCell(s.result.values.reference), WholeCell(s.result.values.referenceTs)], REFERENCE_COLUMNS)
  {
    Under2(s, [NumberCell(s.result.values.reference), WholeCell(s.result.values.referenceTs)], REFERENCE_COLUMNS);
  }

  lemma PremarketUnder(s: StoredOutcome)
    ensures Under(s, PriceCells(s.result.values.premarket), PREMARKET_COLUMNS)
  {
    Under4(s, PriceCells(s.result.values.premarket), PREMARKET_COLUMNS);
  }

  lemma RegularUnder(s: StoredOutcome)
    ensures Under(s, PriceCells(s.result.values.regular), REGULAR_COLUMNS)
  {
    Under4(s, PriceCells(s.result.values.regular), REGULAR_COLUMNS);
  }

  lemma PremarketReturnUnder(s: StoredOutcome)
    ensures Under(s, PriceCells(s.result.values.premarketReturns), PREMARKET_RETURN_COLUMNS)
  {
    Under4(s, PriceCells(s.result.values.premarketReturns), PREMARKET_RETURN_COLUMNS);
  }

  lemma RegularReturnUnder(s: StoredOutcome)
    ensures Under(s, PriceCells(s.result.values.regularReturns), REGULAR_RETURN_COLUMNS)
  {
    Under4(s, PriceCells(s.result.values.regularReturns), REGULAR_RETURN_COLUMNS);
  }

  lemma HorizonUnder(s: StoredOutcome)
    ensures Under(s, HorizonCells(s.result.values), HORIZON_COLUMNS)
  {
    Under5(s, HorizonCells(s.result.values), HORIZON_COLUMNS);
  }

  lemma RegularCountUnder(s: StoredOutcome)
    ensures Under(s, TallyCells(s.result.regular), REGULAR_COUNT_COLUMNS)
  {
    Under3(s, TallyCells(s.result.regular), REGULAR_COUNT_COLUMNS);
  }

  lemma PremarketCountUnder(s: StoredOutcome)
    ensures Under(s, TallyCells(s.result.premarket), PREMARKET_COUNT_COLUMNS)
  {
    Under3(s, TallyCells(s.result.premarket), PREMARKET_COUNT_COLUMNS);
  }

  lemma FollowingCountUnder(s: StoredOutcome)
    ensures Under(s, TallyCells(s.result.following), FOLLOWING_COUNT_COLUMNS)
  {
    Under3(s, TallyCells(s.result.following), FOLLOWING_COUNT_COLUMNS);
  }

  lemma RegularCoverageUnder(s: StoredOutcome)
    ensures Under(s, CoverageCells(s.regular), REGULAR_COVERAGE_COLUMNS)
  {
    Under2(s, CoverageCells(s.regular), REGULAR_COVERAGE_COLUMNS);
  }

  lemma PremarketCoverageUnder(s: StoredOutcome)
    ensures Under(s, CoverageCells(s.premarket), PREMARKET_COVERAGE_COLUMNS)
  {
    Under2(s, CoverageCells(s.premarket), PREMARKET_COVERAGE_COLUMNS);
  }

  lemma FollowingCoverageUnder(s: StoredOutcome)
    ensures Under(s, CoverageCells(s.following), FOLLOWING_COVERAGE_COLUMNS)
  {
    Under2(s, CoverageCells(s.following), FOLLOWING_COVERAGE_COLUMNS);
  }

  lemma CoverageDocumentUnder(s: StoredOutcome)
    ensures Under(s, [IdentitiesOf(s)], COVERAGE_DOCUMENT_COLUMNS)
  {
    Under1(s, [IdentitiesOf(s)], COVERAGE_DOCUMENT_COLUMNS);
  }

  lemma ClosingUnder(s: StoredOutcome)
    ensures Under(s, ClosingCells(s), CLOSING_COLUMNS)
  {
    Under6(s, ClosingCells(s), CLOSING_COLUMNS);
  }

  lemma ValuesUnder(s: StoredOutcome)
    ensures Under(s, ValueCells(s.result.values), VALUE_COLUMNS)
  {
    var v := s.result.values;
    var reference := [NumberCell(v.reference), WholeCell(v.referenceTs)];
    ReferenceUnder(s);
    PremarketUnder(s);
    RegularUnder(s);
    PremarketReturnUnder(s);
    RegularReturnUnder(s);
    HorizonUnder(s);
    FiveBeside(s, reference, REFERENCE_COLUMNS, PriceCells(v.premarket), PREMARKET_COLUMNS,
               PriceCells(v.regular), REGULAR_COLUMNS, PriceCells(v.premarketReturns), PREMARKET_RETURN_COLUMNS,
               PriceCells(v.regularReturns), REGULAR_RETURN_COLUMNS);
    Beside(s, reference + PriceCells(v.premarket) + PriceCells(v.regular) + PriceCells(v.premarketReturns)
              + PriceCells(v.regularReturns),
           REFERENCE_COLUMNS + PREMARKET_COLUMNS + REGULAR_COLUMNS + PREMARKET_RETURN_COLUMNS + REGULAR_RETURN_COLUMNS,
           HorizonCells(v), HORIZON_COLUMNS);
  }

  lemma FiveBeside(s: StoredOutcome, a: Row, ca: seq<Column>, b: Row, cb: seq<Column>, c: Row, cc: seq<Column>,
                   d: Row, cd: seq<Column>, e: Row, ce: seq<Column>)
    requires Under(s, a, ca) && Under(s, b, cb) && Under(s, c, cc) && Under(s, d, cd) && Under(s, e, ce)
    ensures Under(s, a + b + c + d + e, ca + cb + cc + cd + ce)
  {
    Beside(s, a, ca, b, cb);
    Beside(s, a + b, ca + cb, c, cc);
    Beside(s, a + b + c, ca + cb + cc, d, cd);
    Beside(s, a + b + c + d, ca + cb + cc + cd, e, ce);
  }

  lemma MiddleUnder(s: StoredOutcome)
    ensures Under(s, MiddleCells(s), MIDDLE_COLUMNS)
  {
    ValuesUnder(s);
    RegularCountUnder(s);
    PremarketCountUnder(s);
    FollowingCountUnder(s);
    RegularCoverageUnder(s);
    PremarketCoverageUnder(s);
    FollowingCoverageUnder(s);
    CoverageDocumentUnder(s);
    EightBeside(s, ValueCells(s.result.values), VALUE_COLUMNS, TallyCells(s.result.regular), REGULAR_COUNT_COLUMNS,
                TallyCells(s.result.premarket), PREMARKET_COUNT_COLUMNS,
                TallyCells(s.result.following), FOLLOWING_COUNT_COLUMNS,
                CoverageCells(s.regular), REGULAR_COVERAGE_COLUMNS,
                CoverageCells(s.premarket), PREMARKET_COVERAGE_COLUMNS,
                CoverageCells(s.following), FOLLOWING_COVERAGE_COLUMNS, [IdentitiesOf(s)], COVERAGE_DOCUMENT_COLUMNS);
  }

  lemma EightBeside(s: StoredOutcome, a: Row, ca: seq<Column>, b: Row, cb: seq<Column>, c: Row, cc: seq<Column>,
                    d: Row, cd: seq<Column>, e: Row, ce: seq<Column>, f: Row, cf: seq<Column>, g: Row, cg: seq<Column>,
                    h: Row, ch: seq<Column>)
    requires Under(s, a, ca) && Under(s, b, cb) && Under(s, c, cc) && Under(s, d, cd) && Under(s, e, ce)
    requires Under(s, f, cf) && Under(s, g, cg) && Under(s, h, ch)
    ensures Under(s, a + b + c + d + e + f + g + h, ca + cb + cc + cd + ce + cf + cg + ch)
  {
    FiveBeside(s, a, ca, b, cb, c, cc, d, cd, e, ce);
    Beside(s, a + b + c + d + e, ca + cb + cc + cd + ce, f, cf);
    Beside(s, a + b + c + d + e + f, ca + cb + cc + cd + ce + cf, g, cg);
    Beside(s, a + b + c + d + e + f + g, ca + cb + cc + cd + ce + cf + cg, h, ch);
  }

  /** Every cell of an inserted row is the value of the column it stands under. */
  lemma ColumnsHold(s: StoredOutcome)
    ensures |INSERT_COLUMNS| == WIDTH && Under(s, Cells()(s), INSERT_COLUMNS)
  {
    IdentityUnder(s);
    MiddleUnder(s);
    ClosingUnder(s);
    Beside(s, IdentityCells(s.result), IDENTITY_COLUMNS, MiddleCells(s), MIDDLE_COLUMNS);
    Beside(s, IdentityCells(s.result) + MiddleCells(s), IDENTITY_COLUMNS + MIDDLE_COLUMNS, ClosingCells(s),
           CLOSING_COLUMNS);
    KeyColumns(s);
  }
}
