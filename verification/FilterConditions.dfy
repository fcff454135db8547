/** The two forms of a filter agree: its clauses, their placeholders resolved through the shared
    parameter list and read in three-valued logic, are TRUE of exactly the rows that the row
    test has nothing against. */
module FilterConditions {
  import opened Sequences
  import opened Filters

  // ------------------------------------------------------------------ placeholders resolve

  predicate Holds(row: EventRow, c: Condition) {
    CompareCell(CellOf(row, c.column), c.test, c.value).True?
  }

  predicate AllHold(row: EventRow, conditions: seq<Condition>) {
    forall i :: 0 <= i < |conditions| ==> Holds(row, conditions[i])
  }

  lemma {:induction false} ConjunctionTrue(row: EventRow, clauses: seq<Clause>, params: seq<Value>)
    ensures Conjunction(row, clauses, params).True?
            <==> forall i :: 0 <= i < |clauses| ==> ClauseTruth(row, clauses[i], params).True?
  {
    if clauses != [] {
      ConjunctionTrue(row, clauses[1..], params);
      assert clauses == [clauses[0]] + clauses[1..];
    }
  }

  lemma {:induction false} PlaceholderAt(conditions: seq<Condition>, before: nat, i: nat)
    requires i < |conditions|
    ensures Numbered(conditions, before)[i] == Compare(conditions[i].column, conditions[i].test, before + i + 1)
    ensures Values(conditions)[i] == conditions[i].value
  {
    if i < |conditions| - 1 {
      PlaceholderAt(conditions[..|conditions| - 1], before, i);
    }
  }

  /** Whatever was added to the builder before and after, each clause meets its own value. */
  lemma PlaceholdersResolve(row: EventRow, conditions: seq<Condition>, before: seq<Value>, after: seq<Value>)
    ensures Conjunction(row, Numbered(conditions, |before|), before + Values(conditions) + after).True?
            <==> AllHold(row, conditions)
  {
    var clauses := Numbered(conditions, |before|);
    var params := before + Values(conditions) + after;
    forall i | 0 <= i < |conditions|
      ensures ClauseTruth(row, clauses[i], params).True? <==> Holds(row, conditions[i])
    {
      PlaceholderAt(conditions, |before|, i);
      assert params[|before| + i] == Values(conditions)[i];
    }
    ConjunctionTrue(row, clauses, params);
  }

  lemma AllHoldConcat(row: EventRow, a: seq<Condition>, b: seq<Condition>)
    ensures AllHold(row, a + b) <==> AllHold(row, a) && AllHold(row, b)
  {
    if AllHold(row, a + b) {
      forall i | 0 <= i < |a| ensures Holds(row, a[i]) {
        assert (a + b)[i] == a[i];
      }
      forall i | 0 <= i < |b| ensures Holds(row, b[i]) {
        assert (a + b)[|a| + i] == b[i];
      }
    }
  }

  lemma AllHoldOne(row: EventRow, conditions: seq<Condition>)
    requires |conditions| <= 1
    ensures AllHold(row, conditions) <==> (conditions != [] ==> Holds(row, conditions[0]))
  {
    if conditions != [] && Holds(row, conditions[0]) {
      assert forall i :: 0 <= i < |conditions| ==> conditions[i] == conditions[0];
    }
  }

  // ------------------------------------------------------------------ the row test

  lemma {:induction false} NoListReason(checks: seq<ListCheck>)
    ensures ListReasons(checks) == [] <==> forall i :: 0 <= i < |checks| ==> !ListFails(checks[i])
  {
    if checks != [] {
      var front := checks[..|checks| - 1];
      NoListReason(front);
      assert checks == front + [checks[|checks| - 1]];
    }
  }

  lemma {:induction false} NoPairReason(checks: seq<PairCheck>)
    ensures PairReasons(checks) == [] <==> forall i :: 0 <= i < |checks| ==> !PairFails(checks[i])
  {
    if checks != [] {
      var front := checks[..|checks| - 1];
      NoPairReason(front);
      assert checks == front + [checks[|checks| - 1]];
    }
  }

  // ------------------------------------------------------------------ the two forms agree

  lemma ListsAgree(row: EventRow, f: EventFilter, done: seq<Condition>)
    ensures AllHold(row, WithLists(done, f)) <==> AllHold(row, done) && ListReasons(ListChecks(row, f)) == []
  {
    var a, b := Narrow(AnalysisStatus, f.statuses), Narrow(ReactionClass, f.classes);
    var c, d := Narrow(ReactionDirection, f.directions), Narrow(CollectionMode, f.modes);
    AllHoldConcat(row, done, a);
    AllHoldConcat(row, done + a, b);
    AllHoldConcat(row, done + a + b, c);
    AllHoldConcat(row, done + a + b + c, d);
    var checks := ListChecks(row, f);
    NoListReason(checks);
    AllHoldOne(row, a);
    AllHoldOne(row, b);
    AllHoldOne(row, c);
    AllHoldOne(row, d);
    assert AllHold(row, a) <==> !ListFails(checks[0]);
    assert AllHold(row, b) <==> !ListFails(checks[1]);
    assert AllHold(row, c) <==> !ListFails(checks[2]);
    assert AllHold(row, d) <==> !ListFails(checks[3]);
  }

  lemma BoundAgrees(row: EventRow, column: Column, test: Test, threshold: Option<real>, value: Option<real>, code: Code)
    requires test != AnyOf && CellOf(row, column) == NumberOf(value)
    ensures AllHold(row, Bound(column, test, threshold))
            <==> !PairFails(PairCheck(threshold, value, code, test.AtMost?))
  {
    AllHoldOne(row, Bound(column, test, threshold));
  }

  lemma ReturnsAgree(row: EventRow, f: EventFilter, done: seq<Condition>)
    ensures AllHold(row, WithReturns(done, f))
            <==> AllHold(row, done) && forall i :: 0 <= i < 4 ==> !PairFails(PairChecks(row, f)[i])
  {
    var a, b := Bound(AbsInitialReturn, AtLeast, f.minAbsInitial), Bound(AbsInitialReturn, AtMost, f.maxAbsInitial);
    var c, d := Bound(Retention, AtLeast, f.minRetention), Bound(Retention, AtMost, f.maxRetention);
    AllHoldConcat(row, done, a);
    AllHoldConcat(row, done + a, b);
    AllHoldConcat(row, done + a + b, c);
    AllHoldConcat(row, done + a + b + c, d);
    var checks := PairChecks(row, f);
    BoundAgrees(row, AbsInitialReturn, AtLeast, f.minAbsInitial, Magnitude(row.initialReturn), MinAbsInitialExcluded);
    BoundAgrees(row, AbsInitialReturn, AtMost, f.maxAbsInitial, Magnitude(row.initialReturn), MaxAbsInitialExcluded);
    BoundAgrees(row, Retention, AtLeast, f.minRetention, row.retention, MinRetentionExcluded);
    BoundAgrees(row, Retention, AtMost, f.maxRetention, row.retention, MaxRetentionExcluded);
    assert AllHold(row, WithReturns(done, f)) <==>
           && AllHold(row, done)
           && !PairFails(checks[0]) && !PairFails(checks[1]) && !PairFails(checks[2]) && !PairFails(checks[3]);
  }

  lemma CountsAgree(row: EventRow, f: EventFilter, done: seq<Condition>)
    ensures AllHold(row, WithCounts(done, f))
            <==> AllHold(row, done) && forall i :: 4 <= i < 7 ==> !PairFails(PairChecks(row, f)[i])
  {
    var a, b := CountBound(DetectionDelay, AtLeast, f.minDelay), CountBound(DetectionDelay, AtMost, f.maxDelay);
    var c := CountBound(Volume105m, AtLeast, f.minVolume);
    AllHoldConcat(row, done, a);
    AllHoldConcat(row, done + a, b);
    AllHoldConcat(row, done + a + b, c);
    var checks := PairChecks(row, f);
    assert a == Bound(DetectionDelay, AtLeast, Real(f.minDelay));
    assert b == Bound(DetectionDelay, AtMost, Real(f.maxDelay));
    assert c == Bound(Volume105m, AtLeast, Real(f.minVolume));
    BoundAgrees(row, DetectionDelay, AtLeast, Real(f.minDelay), Real(row.delay), MinDelayExcluded);
    BoundAgrees(row, DetectionDelay, AtMost, Real(f.maxDelay), Real(row.delay), MaxDelayExcluded);
    BoundAgrees(row, Volume105m, AtLeast, Real(f.minVolume), Real(row.volume), MinVolumeExcluded);
    assert AllHold(row, WithCounts(done, f)) <==>
           AllHold(row, done) && !PairFails(checks[4]) && !PairFails(checks[5]) && !PairFails(checks[6]);
  }

  lemma RatiosAgree(row: EventRow, f: EventFilter, done: seq<Condition>)
    ensures AllHold(row, WithRatios(done, f))
            <==> AllHold(row, done) && forall i :: 7 <= i < 10 ==> !PairFails(PairChecks(row, f)[i])
  {
    var a := Bound(CoverageRatio, AtLeast, f.minCoverage);
    var b, c := Bound(EpsSurprise, AtLeast, f.minEpsSurprise), Bound(EpsSurprise, AtMost, f.maxEpsSurprise);
    AllHoldConcat(row, done, a);
    AllHoldConcat(row, done + a, b);
    AllHoldConcat(row, done + a + b, c);
    var checks := PairChecks(row, f);
    BoundAgrees(row, CoverageRatio, AtLeast, f.minCoverage, row.coverageRatio, MinCoverageExcluded);
    BoundAgrees(row, EpsSurprise, AtLeast, f.minEpsSurprise, row.epsSurprise, MinEpsSurpriseExcluded);
    BoundAgrees(row, EpsSurprise, AtMost, f.maxEpsSurprise, row.epsSurprise, MaxEpsSurpriseExcluded);
    assert AllHold(row, WithRatios(done, f)) <==>
           AllHold(row, done) && !PairFails(checks[7]) && !PairFails(checks[8]) && !PairFails(checks[9]);
  }

  lemma ConditionsAgree(row: EventRow, f: EventFilter)
    ensures AllHold(row, RefinementConditions(f)) <==> ExclusionReasons(row, f) == []
  {
    ListsAgree(row, f, []);
    ReturnsAgree(row, f, WithLists([], f));
    CountsAgree(row, f, WithReturns(WithLists([], f), f));
    RatiosAgree(row, f, WithCounts(WithReturns(WithLists([], f), f), f));
    NoPairReason(PairChecks(row, f));
  }

  /** The statement, its placeholders resolved against everything the shared builder holds,
      is TRUE of a row exactly when the row test finds no reason against it. */
  lemma RefinementAgrees(row: EventRow, f: EventFilter, before: seq<Value>, after: seq<Value>)
    ensures
      Conjunction(row, Numbered(RefinementConditions(f), |before|),
                  before + Values(RefinementConditions(f)) + after).True?
      <==> ExclusionReasons(row, f) == []
  {
    PlaceholdersResolve(row, RefinementConditions(f), before, after);
    ConditionsAgree(row, f);
  }

  // ------------------------------------------------------------------ what each reason means

  predicate Unlisted(allowed: seq<string>, value: Option<string>) {
    allowed != [] && !(value.Some? && value.value in allowed)
  }

  predicate TooSmall(value: Option<real>, least: Option<real>) {
    least.Some? && !(value.Some? && value.value >= least.value)
  }

  predicate TooLarge(value: Option<real>, most: Option<real>) {
    most.Some? && !(value.Some? && value.value <= most.value)
  }

  predicate TooFew(value: Option<int>, least: Option<int>) {
    least.Some? && !(value.Some? && value.value >= least.value)
  }

  predicate TooMany(value: Option<int>, most: Option<int>) {
    most.Some? && !(value.Some? && value.value <= most.value)
  }

  /** What each code says of a row: a set bound that an absent value never meets. A move counts
      the same in both directions. */
  predicate Excludes(row: EventRow, f: EventFilter, code: Code) {
    match code
    case StatusExcluded => Unlisted(f.statuses, row.status)
    case ClassExcluded => Unlisted(f.classes, row.reactionClass)
    case DirectionExcluded => Unlisted(f.directions, row.direction)
    case ModeExcluded => Unlisted(f.modes, row.mode)
    case MinAbsInitialExcluded =>
      f.minAbsInitial.Some? && !(row.initialReturn.Some?
        && (row.initialReturn.value >= f.minAbsInitial.value || -row.initialReturn.value >= f.minAbsInitial.value))
    case MaxAbsInitialExcluded =>
      f.maxAbsInitial.Some? && !(row.initialReturn.Some?
        && row.initialReturn.value <= f.maxAbsInitial.value && -row.initialReturn.value <= f.maxAbsInitial.value)
    case MinRetentionExcluded => TooSmall(row.retention, f.minRetention)
    case MaxRetentionExcluded => TooLarge(row.retention, f.maxRetention)
    case MinDelayExcluded => TooFew(row.delay, f.minDelay)
    case MaxDelayExcluded => TooMany(row.delay, f.maxDelay)
    case MinVolumeExcluded => TooFew(row.volume, f.minVolume)
    case MinCoverageExcluded => TooSmall(row.coverageRatio, f.minCoverage)
    case MinEpsSurpriseExcluded => TooSmall(row.epsSurprise, f.minEpsSurprise)
    case MaxEpsSurpriseExcluded => TooLarge(row.epsSurprise, f.maxEpsSurprise)
  }

  lemma {:induction false} ListReasonsHave(checks: seq<ListCheck>, code: Code)
    ensures code in ListReasons(checks)
            <==> exists i :: 0 <= i < |checks| && ListFails(checks[i]) && checks[i].code == code
  {
    if checks != [] {
      var front := checks[..|checks| - 1];
      ListReasonsHave(front, code);
      assert checks == front + [checks[|checks| - 1]];
    }
  }

  lemma {:induction false} PairReasonsHave(checks: seq<PairCheck>, code: Code)
    ensures code in PairReasons(checks)
            <==> exists i :: 0 <= i < |checks| && PairFails(checks[i]) && checks[i].code == code
  {
    if checks != [] {
      var front := checks[..|checks| - 1];
      PairReasonsHave(front, code);
      assert checks == front + [checks[|checks| - 1]];
    }
  }

  /** Where each code is checked: the lists first, then the bounds. */
  function Place(code: Code): (place: int)
    ensures 0 <= place < 14
  {
    match code
    case StatusExcluded => 0
    case ClassExcluded => 1
    case DirectionExcluded => 2
    case ModeExcluded => 3
    case MinAbsInitialExcluded => 4
    case MaxAbsInitialExcluded => 5
    case MinRetentionExcluded => 6
    case MaxRetentionExcluded => 7
    case MinDelayExcluded => 8
    case MaxDelayExcluded => 9
    case MinVolumeExcluded => 10
    case MinCoverageExcluded => 11
    case MinEpsSurpriseExcluded => 12
    case MaxEpsSurpriseExcluded => 13
  }

  lemma ListReasonPlace(row: EventRow, f: EventFilter, code: Code)
    ensures code in ListReasons(ListChecks(row, f)) <==> Place(code) < 4 && ListFails(ListChecks(row, f)[Place(code)])
  {
    var checks := ListChecks(row, f);
    ListReasonsHave(checks, code);
    forall i | 0 <= i < 4 ensures Place(checks[i].code) == i {
    }
    assert Place(code) < 4 ==> checks[Place(code)].code == code;
  }

  lemma PairReasonPlace(row: EventRow, f: EventFilter, code: Code)
    ensures code in PairReasons(PairChecks(row, f))
            <==> Place(code) >= 4 && PairFails(PairChecks(row, f)[Place(code) - 4])
  {
    var checks := PairChecks(row, f);
    PairReasonsHave(checks, code);
    forall i | 0 <= i < 10 ensures Place(checks[i].code) == i + 4 {
    }
    assert Place(code) >= 4 ==> checks[Place(code) - 4].code == code;
  }

  lemma ListExcludes(row: EventRow, f: EventFilter, code: Code)
    requires Place(code) < 4
    ensures ListFails(ListChecks(row, f)[Place(code)]) <==> Excludes(row, f, code)
  {
  }

  lemma PairExcludes(row: EventRow, f: EventFilter, code: Code)
    requires Place(code) >= 4
    ensures PairFails(PairChecks(row, f)[Place(code) - 4]) <==> Excludes(row, f, code)
  {
  }

  /** Each code is recorded exactly when its own bound is set and not met. */
  lemma ReasonMeaning(row: EventRow, f: EventFilter, code: Code)
    ensures code in ExclusionReasons(row, f) <==> Excludes(row, f, code)
  {
    ListReasonPlace(row, f, code);
    PairReasonPlace(row, f, code);
    if Place(code) < 4 {
      ListExcludes(row, f, code);
    } else {
      PairExcludes(row, f, code);
    }
  }

  /** A row passes the refinement exactly when no bound excludes it. */
  lemma RefinementMeaning(row: EventRow, f: EventFilter)
    ensures ExclusionReasons(row, f) == [] <==> forall code :: !Excludes(row, f, code)
  {
    var reasons := ExclusionReasons(row, f);
    forall code ensures code in reasons <==> Excludes(row, f, code) {
      ReasonMeaning(row, f, code);
    }
    if reasons != [] {
      assert reasons[0] in reasons;
    }
  }
}
