/** Cohort filters, which the system writes twice: as a statement of the database with
    numbered placeholders, and as a test on a fetched row. */
module Filters {
  import opened Sequences

  datatype Versions = Versions(feature: string, detector: string, classifier: string)

  datatype EventFilter = EventFilter(
    dateFrom: Option<int>, dateTo: Option<int>, symbols: seq<string>,
    statuses: seq<string>, classes: seq<string>, directions: seq<string>, modes: seq<string>,
    minAbsInitial: Option<real>, maxAbsInitial: Option<real>,
    minRetention: Option<real>, maxRetention: Option<real>,
    minDelay: Option<int>, maxDelay: Option<int>, minVolume: Option<int>,
    minCoverage: Option<real>, minEpsSurprise: Option<real>, maxEpsSurprise: Option<real>,
    versions: Versions, orderBy: string, limit: Option<int>, offset: int)

  /** One event joined with the live feature row of a version triple; `None` is a null. */
  datatype EventRow = EventRow(
    symbol: string, date: int, hour: Option<string>,
    liquidityExcludedAt: Option<int>, supersededAt: Option<int>, epsSurprise: Option<real>,
    status: Option<string>, reactionClass: Option<string>, direction: Option<string>, mode: Option<string>,
    initialReturn: Option<real>, retention: Option<real>, delay: Option<int>, volume: Option<int>,
    coverageRatio: Option<real>, evidence: Option<string>, flags: seq<string>)

  // ------------------------------------------------------------------ statements

  datatype Value =
    | TextValue(text: string) | TextsValue(texts: seq<string>) | NumberValue(number: real) | DateValue(date: int)

  datatype Cell = Null | TextCell(text: string) | NumberCell(number: real) | DateCell(date: int)

  datatype Column =
    | Symbol | EarningsDate | Hour | LiquidityExcludedAt | SupersededAt
    | AnalysisStatus | ReactionClass | ReactionDirection | CollectionMode
    | InitialReturn | AbsInitialReturn | Retention | DetectionDelay | Volume105m | CoverageRatio | EpsSurprise

  datatype Test = AnyOf | AtLeast | AtMost

  /** `column test value`, before the value is replaced by a placeholder. */
  datatype Condition = Condition(column: Column, test: Test, value: Value)

  datatype Clause =
    | Compare(column: Column, test: Test, placeholder: nat)
    | IsText(column: Column, literal: string)
    | IsNull(column: Column)

  datatype Truth = True | False | Unknown

  function TextOf(v: Option<string>): Cell {
    if v.None? then Null else TextCell(v.value)
  }

  function NumberOf(v: Option<real>): Cell {
    if v.None? then Null else NumberCell(v.value)
  }

  function CountOf(v: Option<int>): Cell {
    if v.None? then Null else NumberCell(v.value as real)
  }

  function Magnitude(v: Option<real>): Option<real> {
    if v.None? then None else Some(Abs(v.value))
  }

  function CellOf(row: EventRow, column: Column): Cell {
    match column
    case Symbol => TextCell(row.symbol)
    case EarningsDate => DateCell(row.date)
    case Hour => TextOf(row.hour)
    case LiquidityExcludedAt => CountOf(row.liquidityExcludedAt)
    case SupersededAt => CountOf(row.supersededAt)
    case AnalysisStatus => TextOf(row.status)
    case ReactionClass => TextOf(row.reactionClass)
    case ReactionDirection => TextOf(row.direction)
    case CollectionMode => TextOf(row.mode)
    case InitialReturn => NumberOf(row.initialReturn)
    case AbsInitialReturn => NumberOf(Magnitude(row.initialReturn))
    case Retention => NumberOf(row.retention)
    case DetectionDelay => CountOf(row.delay)
    case Volume105m => CountOf(row.volume)
    case CoverageRatio => NumberOf(row.coverageRatio)
    case EpsSurprise => NumberOf(row.epsSurprise)
  }

  function Known(b: bool): Truth {
    if b then True else False
  }

  /** A comparison with a null is unknown; so is one between values of different types, which
      the builder never produces. */
  function CompareCell(cell: Cell, test: Test, value: Value): Truth {
    match (cell, test, value)
    case (TextCell(t), AnyOf, TextsValue(ts)) => Known(t in ts)
    case (NumberCell(x), AtLeast, NumberValue(y)) => Known(x >= y)
    case (NumberCell(x), AtMost, NumberValue(y)) => Known(x <= y)
    case (DateCell(x), AtLeast, DateValue(y)) => Known(x >= y)
    case (DateCell(x), AtMost, DateValue(y)) => Known(x <= y)
    case _ => Unknown
  }

  /** `$n` is the n-th parameter, counted from one. */
  function ClauseTruth(row: EventRow, clause: Clause, params: seq<Value>): Truth {
    match clause
    case Compare(column, test, n) =>
      if 1 <= n <= |params| then CompareCell(CellOf(row, column), test, params[n - 1]) else Unknown
    case IsText(column, literal) =>
      if CellOf(row, column).TextCell? then Known(CellOf(row, column).text == literal) else Unknown
    case IsNull(column) => Known(CellOf(row, column).Null?)
  }

  function And(a: Truth, b: Truth): Truth {
    if a.False? || b.False? then False
    else if a.Unknown? || b.Unknown? then Unknown
    else True
  }

  /** Clauses joined with AND; none at all is the literal TRUE. */
  function Conjunction(row: EventRow, clauses: seq<Clause>, params: seq<Value>): Truth {
    if clauses == [] then True
    else And(ClauseTruth(row, clauses[0], params), Conjunction(row, clauses[1..], params))
  }

  // ------------------------------------------------------------------ what the builder emits

  function Values(conditions: seq<Condition>): (r: seq<Value>)
    ensures |r| == |conditions|
  {
    if conditions == [] then [] else Values(conditions[..|conditions| - 1]) + [conditions[|conditions| - 1].value]
  }

  /** The clauses for `conditions` when `before` parameters are already taken. */
  function Numbered(conditions: seq<Condition>, before: nat): (r: seq<Clause>)
    ensures |r| == |conditions|
  {
    if conditions == [] then []
    else
      var last := conditions[|conditions| - 1];
      Numbered(conditions[..|conditions| - 1], before) + [Compare(last.column, last.test, before + |conditions|)]
  }

  function Narrow(column: Column, allowed: seq<string>): seq<Condition> {
    if allowed == [] then [] else [Condition(column, AnyOf, TextsValue(allowed))]
  }

  function Bound(column: Column, test: Test, threshold: Option<real>): seq<Condition> {
    if threshold.None? then [] else [Condition(column, test, NumberValue(threshold.value))]
  }

  function CountBound(column: Column, test: Test, threshold: Option<int>): seq<Condition> {
    if threshold.None? then [] else [Condition(column, test, NumberValue(threshold.value as real))]
  }

  function DateBound(test: Test, date: Option<int>): seq<Condition> {
    if date.None? then [] else [Condition(EarningsDate, test, DateValue(date.value))]
  }

  function ScopeConditions(f: EventFilter): seq<Condition> {
    [] + DateBound(AtLeast, f.dateFrom) + DateBound(AtMost, f.dateTo) + Narrow(Symbol, f.symbols)
  }

  function WithLists(done: seq<Condition>, f: EventFilter): seq<Condition> {
    done + Narrow(AnalysisStatus, f.statuses) + Narrow(ReactionClass, f.classes)
    + Narrow(ReactionDirection, f.directions) + Narrow(CollectionMode, f.modes)
  }

  function WithReturns(done: seq<Condition>, f: EventFilter): seq<Condition> {
    done + Bound(AbsInitialReturn, AtLeast, f.minAbsInitial) + Bound(AbsInitialReturn, AtMost, f.maxAbsInitial)
    + Bound(Retention, AtLeast, f.minRetention) + Bound(Retention, AtMost, f.maxRetention)
  }

  function WithCounts(done: seq<Condition>, f: EventFilter): seq<Condition> {
    done + CountBound(DetectionDelay, AtLeast, f.minDelay) + CountBound(DetectionDelay, AtMost, f.maxDelay)
    + CountBound(Volume105m, AtLeast, f.minVolume)
  }

  function WithRatios(done: seq<Condition>, f: EventFilter): seq<Condition> {
    done + Bound(CoverageRatio, AtLeast, f.minCoverage)
    + Bound(EpsSurprise, AtLeast, f.minEpsSurprise) + Bound(EpsSurprise, AtMost, f.maxEpsSurprise)
  }

  function RefinementConditions(f: EventFilter): seq<Condition> {
    WithRatios(WithCounts(WithReturns(WithLists([], f), f), f), f)
  }

  const SCOPE_LITERALS: seq<Clause> := [IsText(Hour, "amc"), IsNull(LiquidityExcludedAt), IsNull(SupersededAt)]

  /** The clauses and the parameters say the same conditions, after what was there before. */
  ghost predicate InStep(params: seq<Value>, clauses: seq<Clause>, base: seq<Value>, fixed: seq<Clause>,
                         done: seq<Condition>) {
    params == base + Values(done) && clauses == fixed + Numbered(done, |base|)
  }

  /** Accumulates positional parameters and hands back their placeholders. */
  class ParamBuilder {
    var params: seq<Value>

    constructor ()
      ensures params == []
    {
      params := [];
    }

    method Add(value: Value) returns (placeholder: nat)
      modifies this
      ensures params == old(params) + [value]
      ensures placeholder == |params|
    {
      params := params + [value];
      placeholder := |params|;
    }

    /** Appends what an optional condition asks for, keeping clauses and parameters in step. */
    method Emit(wanted: seq<Condition>, clauses: seq<Clause>, ghost base: seq<Value>, ghost fixed: seq<Clause>,
                ghost done: seq<Condition>)
      returns (extended: seq<Clause>, ghost now: seq<Condition>)
      requires |wanted| <= 1
      requires InStep(params, clauses, base, fixed, done)
      modifies this
      ensures && InStep(params, extended, base, fixed, now)
              && now == done + wanted
    {
      extended, now := clauses, done + wanted;
      if wanted == [] {
        assert now == done;
      } else {
        assert now[..|now| - 1] == done;
        var placeholder := Add(wanted[0].value);
        extended := extended + [Compare(wanted[0].column, wanted[0].test, placeholder)];
      }
    }
  }

  method ScopeSql(f: EventFilter, builder: ParamBuilder) returns (clauses: seq<Clause>)
    modifies builder
    ensures builder.params == old(builder.params) + Values(ScopeConditions(f))
    ensures clauses == SCOPE_LITERALS + Numbered(ScopeConditions(f), |old(builder.params)|)
  {
    ghost var base := builder.params;
    ghost var done: seq<Condition> := [];
    clauses := SCOPE_LITERALS;
    clauses, done := builder.Emit(DateBound(AtLeast, f.dateFrom), clauses, base, SCOPE_LITERALS, done);
    clauses, done := builder.Emit(DateBound(AtMost, f.dateTo), clauses, base, SCOPE_LITERALS, done);
    clauses, done := builder.Emit(Narrow(Symbol, f.symbols), clauses, base, SCOPE_LITERALS, done);
  }

  method EmitLists(f: EventFilter, builder: ParamBuilder, before: seq<Clause>, ghost base: seq<Value>,
                   ghost earlier: seq<Condition>)
    returns (clauses: seq<Clause>)
    requires InStep(builder.params, before, base, [], earlier)
    modifies builder
    ensures InStep(builder.params, clauses, base, [], WithLists(earlier, f))
  {
    ghost var done := earlier;
    clauses := before;
    clauses, done := builder.Emit(Narrow(AnalysisStatus, f.statuses), clauses, base, [], done);
    clauses, done := builder.Emit(Narrow(ReactionClass, f.classes), clauses, base, [], done);
    clauses, done := builder.Emit(Narrow(ReactionDirection, f.directions), clauses, base, [], done);
    clauses, done := builder.Emit(Narrow(CollectionMode, f.modes), clauses, base, [], done);
  }

  method EmitReturns(f: EventFilter, builder: ParamBuilder, before: seq<Clause>, ghost base: seq<Value>,
                     ghost earlier: seq<Condition>)
    returns (clauses: seq<Clause>)
    requires InStep(builder.params, before, base, [], earlier)
    modifies builder
    ensures InStep(builder.params, clauses, base, [], WithReturns(earlier, f))
  {
    ghost var done := earlier;
    clauses := before;
    clauses, done := builder.Emit(Bound(AbsInitialReturn, AtLeast, f.minAbsInitial), clauses, base, [], done);
    clauses, done := builder.Emit(Bound(AbsInitialReturn, AtMost, f.maxAbsInitial), clauses, base, [], done);
    clauses, done := builder.Emit(Bound(Retention, AtLeast, f.minRetention), clauses, base, [], done);
    clauses, done := builder.Emit(Bound(Retention, AtMost, f.maxRetention), clauses, base, [], done);
  }

  method EmitCounts(f: EventFilter, builder: ParamBuilder, before: seq<Clause>, ghost base: seq<Value>,
                    ghost earlier: seq<Condition>)
    returns (clauses: seq<Clause>)
    requires InStep(builder.params, before, base, [], earlier)
    modifies builder
    ensures InStep(builder.params, clauses, base, [], WithCounts(earlier, f))
  {
    ghost var done := earlier;
    clauses := before;
    clauses, done := builder.Emit(CountBound(DetectionDelay, AtLeast, f.minDelay), clauses, base, [], done);
    clauses, done := builder.Emit(CountBound(DetectionDelay, AtMost, f.maxDelay), clauses, base, [], done);
    clauses, done := builder.Emit(CountBound(Volume105m, AtLeast, f.minVolume), clauses, base, [], done);
  }

  method EmitRatios(f: EventFilter, builder: ParamBuilder, before: seq<Clause>, ghost base: seq<Value>,
                    ghost earlier: seq<Condition>)
    returns (clauses: seq<Clause>)
    requires InStep(builder.params, before, base, [], earlier)
    modifies builder
    ensures InStep(builder.params, clauses, base, [], WithRatios(earlier, f))
  {
    ghost var done := earlier;
    clauses := before;
    clauses, done := builder.Emit(Bound(CoverageRatio, AtLeast, f.minCoverage), clauses, base, [], done);
    clauses, done := builder.Emit(Bound(EpsSurprise, AtLeast, f.minEpsSurprise), clauses, base, [], done);
    clauses, done := builder.Emit(Bound(EpsSurprise, AtMost, f.maxEpsSurprise), clauses, base, [], done);
  }

  method RefinementSql(f: EventFilter, builder: ParamBuilder) returns (clauses: seq<Clause>)
    modifies builder
    ensures builder.params == old(builder.params) + Values(RefinementConditions(f))
    ensures clauses == Numbered(RefinementConditions(f), |old(builder.params)|)
  {
    ghost var base := builder.params;
    clauses := EmitLists(f, builder, [], base, []);
    clauses := EmitReturns(f, builder, clauses, base, WithLists([], f));
    clauses := EmitCounts(f, builder, clauses, base, WithReturns(WithLists([], f), f));
    clauses := EmitRatios(f, builder, clauses, base, WithCounts(WithReturns(WithLists([], f), f), f));
  }

  // ------------------------------------------------------------------ the row test

  datatype Code =
    | StatusExcluded | ClassExcluded | DirectionExcluded | ModeExcluded
    | MinAbsInitialExcluded | MaxAbsInitialExcluded | MinRetentionExcluded | MaxRetentionExcluded
    | MinDelayExcluded | MaxDelayExcluded | MinVolumeExcluded | MinCoverageExcluded
    | MinEpsSurpriseExcluded | MaxEpsSurpriseExcluded

  datatype ListCheck = ListCheck(allowed: seq<string>, value: Option<string>, code: Code)

  datatype PairCheck = PairCheck(threshold: Option<real>, value: Option<real>, code: Code, upper: bool)

  function Real(v: Option<int>): Option<real> {
    if v.None? then None else Some(v.value as real)
  }

  function ListChecks(row: EventRow, f: EventFilter): seq<ListCheck> {
    [ListCheck(f.statuses, row.status, StatusExcluded),
     ListCheck(f.classes, row.reactionClass, ClassExcluded),
     ListCheck(f.directions, row.direction, DirectionExcluded),
     ListCheck(f.modes, row.mode, ModeExcluded)]
  }

  function PairChecks(row: EventRow, f: EventFilter): seq<PairCheck> {
    [PairCheck(f.minAbsInitial, Magnitude(row.initialReturn), MinAbsInitialExcluded, false),
     PairCheck(f.maxAbsInitial, Magnitude(row.initialReturn), MaxAbsInitialExcluded, true),
     PairCheck(f.minRetention, row.retention, MinRetentionExcluded, false),
     PairCheck(f.maxRetention, row.retention, MaxRetentionExcluded, true),
     PairCheck(Real(f.minDelay), Real(row.delay), MinDelayExcluded, false),
     PairCheck(Real(f.maxDelay), Real(row.delay), MaxDelayExcluded, true),
     PairCheck(Real(f.minVolume), Real(row.volume), MinVolumeExcluded, false),
     PairCheck(f.minCoverage, row.coverageRatio, MinCoverageExcluded, false),
     PairCheck(f.minEpsSurprise, row.epsSurprise, MinEpsSurpriseExcluded, false),
     PairCheck(f.maxEpsSurprise, row.epsSurprise, MaxEpsSurpriseExcluded, true)]
  }

  predicate ListFails(c: ListCheck) {
    c.allowed != [] && (c.value.None? || c.value.value !in c.allowed)
  }

  predicate PairFails(c: PairCheck) {
    && c.threshold.Some?
    && (c.value.None? || (if c.upper then c.value.value > c.threshold.value else c.value.value < c.threshold.value))
  }

  function ListReasons(checks: seq<ListCheck>): seq<Code> {
    if checks == [] then []
    else
      var last := checks[|checks| - 1];
      ListReasons(checks[..|checks| - 1]) + if ListFails(last) then [last.code] else []
  }

  function PairReasons(checks: seq<PairCheck>): seq<Code> {
    if checks == [] then []
    else
      var last := checks[|checks| - 1];
      PairReasons(checks[..|checks| - 1]) + if PairFails(last) then [last.code] else []
  }

  /** Why a row falls outside the refinement, in a fixed order. */
  function ExclusionReasons(row: EventRow, f: EventFilter): seq<Code> {
    ListReasons(ListChecks(row, f)) + PairReasons(PairChecks(row, f))
  }

  method RefinementExclusionReasons(row: EventRow, f: EventFilter) returns (reasons: seq<Code>)
    ensures reasons == ExclusionReasons(row, f)
  {
    reasons := [];
    var checks := ListChecks(row, f);
    for i := 0 to |checks|
      invariant reasons == ListReasons(checks[..i])
    {
      assert checks[..i + 1][..i] == checks[..i];
      if checks[i].allowed != [] && (checks[i].value.None? || checks[i].value.value !in checks[i].allowed) {
        reasons := reasons + [checks[i].code];
      }
    }
    assert checks[..|checks|] == checks;
    var pairs := PairChecks(row, f);
    for i := 0 to |pairs|
      invariant reasons == ListReasons(checks) + PairReasons(pairs[..i])
    {
      assert pairs[..i + 1][..i] == pairs[..i];
      var threshold, value := pairs[i].threshold, pairs[i].value;
      if threshold.None? {
        continue;
      }
      if value.None? || (if pairs[i].upper then value.value > threshold.value else value.value < threshold.value) {
        reasons := reasons + [pairs[i].code];
      }
    }
    assert pairs[..|pairs|] == pairs;
  }

  // ------------------------------------------------------------------ whole queries

  /** The cohort statement: three version placeholders for the join, the two predicates,
      and one parameter list for all of them. */
  datatype Statement = Statement(join: (nat, nat, nat), scope: seq<Clause>, refinement: seq<Clause>, params: seq<Value>)

  function VersionValues(v: Versions): seq<Value> {
    [TextValue(v.feature), TextValue(v.detector), TextValue(v.classifier)]
  }

  function CohortStatement(f: EventFilter): Statement {
    var first := VersionValues(f.versions);
    var second := first + Values(ScopeConditions(f));
    Statement((1, 2, 3),
              SCOPE_LITERALS + Numbered(ScopeConditions(f), |first|),
              Numbered(RefinementConditions(f), |second|),
              second + Values(RefinementConditions(f)))
  }

  method BuildCohortStatement(f: EventFilter) returns (s: Statement)
    ensures s == CohortStatement(f)
  {
    var builder := new ParamBuilder();
    var fv := builder.Add(TextValue(f.versions.feature));
    var dv := builder.Add(TextValue(f.versions.detector));
    var cv := builder.Add(TextValue(f.versions.classifier));
    assert builder.params == VersionValues(f.versions);
    var scope := ScopeSql(f, builder);
    var refinement := RefinementSql(f, builder);
    s := Statement((fv, dv, cv), scope, refinement, builder.params);
  }

  function TextParam(params: seq<Value>, n: nat): Option<string> {
    if 1 <= n <= |params| && params[n - 1].TextValue? then Some(params[n - 1].text) else None
  }

  function JoinedVersions(s: Statement): Option<Versions> {
    var fv := TextParam(s.params, s.join.0);
    var dv := TextParam(s.params, s.join.1);
    var cv := TextParam(s.params, s.join.2);
    if fv.Some? && dv.Some? && cv.Some? then Some(Versions(fv.value, dv.value, cv.value)) else None
  }

  function Selected(s: Statement): EventRow -> bool {
    (row: EventRow) => Conjunction(row, s.scope, s.params).True? && Conjunction(row, s.refinement, s.params).True?
  }

  /** Runs a statement; `joined` gives the events left-joined with the live rows of a version. */
  function Run(s: Statement, joined: Versions -> seq<EventRow>): seq<EventRow> {
    var v := JoinedVersions(s);
    if v.None? then [] else Filter(joined(v.value), Selected(s))
  }

  // ------------------------------------------------------------------ universe and refinement

  /** The same scope with every refinement back at its default. */
  function UniverseFilter(f: EventFilter, from: int, to: int): EventFilter {
    f.(dateFrom := Some(from), dateTo := Some(to),
       statuses := [], classes := [], directions := [], modes := [],
       minAbsInitial := None, maxAbsInitial := None, minRetention := None, maxRetention := None,
       minDelay := None, maxDelay := None, minVolume := None, minCoverage := None,
       minEpsSurprise := None, maxEpsSurprise := None,
       orderBy := "earnings_date_asc", limit := None, offset := 0)
  }

  function SelectedFilter(f: EventFilter, from: int, to: int): EventFilter {
    f.(dateFrom := Some(from), dateTo := Some(to), orderBy := "earnings_date_asc", limit := None, offset := 0)
  }

  // ------------------------------------------------------------------ canonical record

  /** Study semantics of a filter: lists as sorted sets, presentation state dropped. */
  function CanonicalRecord(f: EventFilter): EventFilter {
    f.(symbols := SortedSet(f.symbols), statuses := SortedSet(f.statuses), classes := SortedSet(f.classes),
       directions := SortedSet(f.directions), modes := SortedSet(f.modes),
       orderBy := "", limit := None, offset := 0)
  }
}
