/** What the registry keeps over every sequence of calls: the out-of-sample seal, an
    append-only history, and results that do not depend on how often or how they are asked for. */
module RegistryLaws {
  import opened Sequences
  import opened Filters
  import opened CanonicalFilters
  import FilterLaws
  import opened Cohort
  import opened CohortOrder
  import opened Registry

  // ------------------------------------------------------------------ the seal

  /** What the results of one study look like at any time. */
  ghost predicate SealedHistory(rs: seq<ResultRow>) {
    && (forall i :: 0 <= i < |rs| ==> rs[i].generation == i + 1)
    && (rs != [] ==> rs[0].record.stage.Development?)
    && (forall i :: 0 <= i < |rs| ==> rs[i].record.rule == rs[0].record.rule)
    && (forall i, j :: 0 <= i < j < |rs| ==> !(rs[i].record.stage.OutOfSample? && rs[j].record.stage.OutOfSample?))
    && (forall i, j :: 0 <= i < j < |rs| ==> rs[i].record != rs[j].record)
    && (forall i :: 0 <= i < |rs| && rs[i].record.stage.OutOfSample? ==> NamesEarlier(rs, i))
  }

  /** Row `i` names a development result stored before it. */
  ghost predicate NamesEarlier(rs: seq<ResultRow>, i: nat)
    requires i < |rs|
  {
    && rs[i].developmentGeneration.Some?
    && 1 <= rs[i].developmentGeneration.value <= i
    && rs[rs[i].developmentGeneration.value - 1].record.stage.Development?
  }

  ghost predicate OneDevelopment(rs: seq<ResultRow>) {
    forall i :: 0 < i < |rs| ==> rs[i].record.stage.OutOfSample?
  }

  ghost predicate Consistent(store: Store, guarded: bool, key: StudyKey) {
    var rs := Filter(store.results, OfStudy(key));
    SealedHistory(rs) && (guarded ==> OneDevelopment(rs)) && (rs != [] ==> key in store.plans)
  }

  lemma PriorIsHistory(results: seq<ResultRow>, key: StudyKey)
    requires SealedHistory(Filter(results, OfStudy(key)))
    ensures Prior(results, key) == Filter(results, OfStudy(key))
  {
    var rs := Filter(results, OfStudy(key));
    assert TotalPreorder(GenerationLe);
    forall x, y | x in rs && y in rs && GenerationLe(x, y) && GenerationLe(y, x) ensures x == y {
      var i :| 0 <= i < |rs| && rs[i] == x;
      var j :| 0 <= j < |rs| && rs[j] == y;
    }
    SortContents(rs, GenerationLe);
    SortSorted(rs, GenerationLe);
    SortedUnique(rs, Prior(results, key), GenerationLe);
  }

  lemma {:induction false} LastDevelopmentFound(rs: seq<ResultRow>)
    requires rs != [] && rs[0].record.stage.Development?
    ensures LastDevelopment(rs).Some?
    ensures exists i :: 0 <= i < |rs| && rs[i] == LastDevelopment(rs).value && rs[i].record.stage.Development?
  {
    var n := |rs| - 1;
    if !rs[n].record.stage.Development? {
      LastDevelopmentFound(rs[..n]);
      var i :| 0 <= i < |rs[..n]| && rs[..n][i] == LastDevelopment(rs[..n]).value;
      assert rs[i] == LastDevelopment(rs).value;
    }
  }

  lemma {:induction false} MaxGenerationIs(rs: seq<ResultRow>)
    requires forall i :: 0 <= i < |rs| ==> rs[i].generation == i + 1
    ensures MaxGeneration(rs) == |rs|
  {
    if rs != [] {
      MaxGenerationIs(rs[..|rs| - 1]);
    }
  }

  /** Adding the computed row keeps the history sealed. */
  lemma HistoryGrows(rs: seq<ResultRow>, record: Record)
    requires SealedHistory(rs)
    requires LastDevelopment(rs).Some? ==> record.rule == LastDevelopment(rs).value.record.rule
    requires record.stage.OutOfSample? ==> LastDevelopment(rs).Some? && !HasOutOfSample(rs)
    requires !HasRecord(rs, record)
    ensures SealedHistory(rs + [NewRow(rs, LastDevelopment(rs), record)])
  {
    MaxGenerationIs(rs);
    if rs != [] {
      LastDevelopmentFound(rs);
    }
  }

  /** What the table asks of a computed record on its own. */
  predicate RecordChecks(r: Record) {
    && r.counts.universe == r.counts.included + r.counts.excluded
    && r.assumptions != [] && r.limitations != [] && r.failureModes != []
    && (r.decision.PaperTradeCandidate? ==> r.sampleGate && r.coverageGate)
  }

  lemma NewRowChecks(store: Store, key: StudyKey, record: Record)
    requires SealedHistory(Filter(store.results, OfStudy(key))) && key in store.plans
    requires (record.key, record.version) == key
    requires var rs := Filter(store.results, OfStudy(key));
             var dev := LastDevelopment(rs);
             && (dev.Some? ==> record.rule == dev.value.record.rule)
             && (record.stage.OutOfSample? ==> dev.Some?)
             && !HasRecord(rs, record)
    ensures var rs := Filter(store.results, OfStudy(key));
            TableAccepts(store, NewRow(rs, LastDevelopment(rs), record))
            <==> RecordChecks(record) && (record.stage.OutOfSample? || rs == [])
  {
    var rs := Filter(store.results, OfStudy(key));
    var row := NewRow(rs, LastDevelopment(rs), record);
    MaxGenerationIs(rs);
    FilterMembers(store.results, OfStudy(key));
    assert KeysFree(store.results, row) by {
      forall i | 0 <= i < |store.results| && RowKey(store.results[i]) == RowKey(row)
        ensures store.results[i].generation != row.generation && store.results[i].record != row.record
      {
        assert store.results[i] in rs;
        var k :| 0 <= k < |rs| && rs[k] == store.results[i];
      }
    }
    if rs != [] {
      LastDevelopmentFound(rs);
      var k :| 0 <= k < |rs| && rs[k] == LastDevelopment(rs).value && rs[k].record.stage.Development?;
      assert rs[k] in store.results;
    }
  }

  /** A stage result that names the study and the stage it was computed for. */
  ghost predicate BelongsTo(m: Outcome<Record>, spec: Spec, stage: Stage) {
    m.Done? ==> (m.value.key, m.value.version) == PlanKey(spec) && m.value.stage == stage
  }

  lemma FinishedKeeps(store: Store, guarded: bool, spec: Spec, stage: Stage, m: Outcome<Record>, dry: bool,
                      key: StudyKey)
    requires BelongsTo(m, spec, stage) && Consistent(store, guarded, key) && Consistent(store, guarded, PlanKey(spec))
    ensures Consistent(Finished(store, guarded, spec, stage, Filter(store.results, OfStudy(PlanKey(spec))), m, dry).0,
                       guarded, key)
  {
    var prior := Filter(store.results, OfStudy(PlanKey(spec)));
    if PlanMatches(store, spec) && (stage.OutOfSample? ==> LastDevelopment(prior).Some?) && m.Done? {
      ConcludeKeeps(store, guarded, m.value, dry, key);
    }
  }

  lemma EvaluateKeeps(store: Store, guarded: bool, c: Call, key: StudyKey)
    requires c.Evaluate? && Consistent(store, guarded, key) && Consistent(store, guarded, PlanKey(c.spec))
    ensures Consistent(Evaluated(store, guarded, c).0, guarded, key)
  {
    var prior := Prior(store.results, PlanKey(c.spec));
    var frozen := FrozenRule(LastDevelopment(prior));
    var m := Materialize(c.spec, c.stage, c.universe, c.outcomes, frozen);
    assert BelongsTo(m, c.spec, c.stage);
    PriorIsHistory(store.results, PlanKey(c.spec));
    FinishedKeeps(store, guarded, c.spec, c.stage, m, c.dry, key);
  }

  /** Another study's history does not see the new row. */
  lemma OtherHistory(results: seq<ResultRow>, row: ResultRow, key: StudyKey)
    requires RowKey(row) != key
    ensures Filter(results + [row], OfStudy(key)) == Filter(results, OfStudy(key))
  {
    FilterConcat(results, [row], OfStudy(key));
    assert Filter([row], OfStudy(key)) == [];
  }

  /** The study's own history grows by it, and stays sealed. */
  lemma OwnHistory(store: Store, guarded: bool, record: Record)
    requires var mine := (record.key, record.version);
             var rs := Filter(store.results, OfStudy(mine));
             && Consistent(store, guarded, mine)
             && (record.stage.OutOfSample? ==> LastDevelopment(rs).Some?)
             && Concluded(store, guarded, rs, record, false).1.Inserted?
    ensures var mine := (record.key, record.version);
            var rs := Filter(store.results, OfStudy(mine));
            var row := NewRow(rs, LastDevelopment(rs), record);
            && Filter(store.results + [row], OfStudy(mine)) == rs + [row]
            && SealedHistory(rs + [row])
            && (guarded ==> OneDevelopment(rs + [row]))
  {
    var mine := (record.key, record.version);
    var rs := Filter(store.results, OfStudy(mine));
    var row := NewRow(rs, LastDevelopment(rs), record);
    FilterConcat(store.results, [row], OfStudy(mine));
    assert Filter([row], OfStudy(mine)) == [row];
    HistoryGrows(rs, record);
    if guarded {
      DevelopmentGrows(rs, record);
    }
  }

  lemma ConcludedAdds(store: Store, guarded: bool, prior: seq<ResultRow>, record: Record, dry: bool)
    ensures var concluded := Concluded(store, guarded, prior, record, dry);
            var row := NewRow(prior, LastDevelopment(prior), record);
            concluded.0 == if concluded.1.Inserted? then store.(results := store.results + [row]) else store
    ensures Concluded(store, guarded, prior, record, dry).1.Inserted? ==> !dry
  {
  }

  lemma ConcludeKeeps(store: Store, guarded: bool, record: Record, dry: bool, key: StudyKey)
    requires var mine := (record.key, record.version);
             && Consistent(store, guarded, key) && Consistent(store, guarded, mine) && mine in store.plans
             && (record.stage.OutOfSample? ==> LastDevelopment(Filter(store.results, OfStudy(mine))).Some?)
    ensures Consistent(Concluded(store, guarded, Filter(store.results, OfStudy((record.key, record.version))), record,
                                 dry).0, guarded, key)
  {
    var mine := (record.key, record.version);
    var rs := Filter(store.results, OfStudy(mine));
    ConcludedAdds(store, guarded, rs, record, dry);
    if Concluded(store, guarded, rs, record, dry).1.Inserted? {
      if key == mine {
        OwnHistory(store, guarded, record);
      } else {
        OtherHistory(store.results, NewRow(rs, LastDevelopment(rs), record), key);
      }
    }
  }

  /** A row that meets the table's checks is the first development result or no development result. */
  lemma DevelopmentGrows(rs: seq<ResultRow>, record: Record)
    requires SealedHistory(rs) && OneDevelopment(rs) && RowChecks(NewRow(rs, LastDevelopment(rs), record))
    ensures OneDevelopment(rs + [NewRow(rs, LastDevelopment(rs), record)])
  {
    if rs != [] {
      LastDevelopmentFound(rs);
    }
  }

  lemma NextKeeps(store: Store, guarded: bool, c: Call)
    requires forall key :: Consistent(store, guarded, key)
    ensures forall key :: Consistent(Next(store, guarded, c).0, guarded, key)
  {
    forall key ensures Consistent(Next(store, guarded, c).0, guarded, key) {
      assert Consistent(store, guarded, key);
      if c.Evaluate? {
        assert Consistent(store, guarded, PlanKey(c.spec));
        EvaluateKeeps(store, guarded, c, key);
      }
    }
  }

  /** Over every sequence of calls, dry runs included: one rule per study, generations 1..n,
      at most one out-of-sample result, naming an earlier development result; and at most one
      development result when the table's checks guard the inserts. */
  lemma {:induction false} EveryRunStaysSealed(guarded: bool, calls: seq<Call>)
    ensures forall key :: Consistent(RunCalls(guarded, calls), guarded, key)
  {
    if calls != [] {
      EveryRunStaysSealed(guarded, calls[..|calls| - 1]);
      NextKeeps(RunCalls(guarded, calls[..|calls| - 1]), guarded, calls[|calls| - 1]);
    }
  }

  // ------------------------------------------------------------------ append-only

  ghost predicate Extends(before: Store, after: Store) {
    && |before.results| <= |after.results| && after.results[..|before.results|] == before.results
    && (forall key :: key in before.plans ==> key in after.plans && after.plans[key] == before.plans[key])
  }

  lemma ConcludedExtends(store: Store, guarded: bool, prior: seq<ResultRow>, record: Record, dry: bool)
    ensures Extends(store, Concluded(store, guarded, prior, record, dry).0)
    ensures Concluded(store, guarded, prior, record, dry).1 != Inserted || dry
            ==> Concluded(store, guarded, prior, record, dry).0 == store
  {
  }

  lemma FinishedExtends(store: Store, guarded: bool, spec: Spec, stage: Stage, prior: seq<ResultRow>,
                        m: Outcome<Record>, dry: bool)
    ensures Extends(store, Finished(store, guarded, spec, stage, prior, m, dry).0)
    ensures Finished(store, guarded, spec, stage, prior, m, dry).1 != Inserted || dry
            ==> Finished(store, guarded, spec, stage, prior, m, dry).0 == store
  {
    if m.Done? {
      ConcludedExtends(store, guarded, prior, m.value, dry);
    }
  }

  /** Every call adds at most; a refused, repeated or dry call changes nothing. */
  lemma NextExtends(store: Store, guarded: bool, c: Call)
    ensures Extends(store, Next(store, guarded, c).0)
    ensures Next(store, guarded, c).1 != Inserted || c.dry ==> Next(store, guarded, c).0 == store
  {
    if c.Evaluate? {
      var prior := Prior(store.results, PlanKey(c.spec));
      var m := Materialize(c.spec, c.stage, c.universe, c.outcomes, FrozenRule(LastDevelopment(prior)));
      FinishedExtends(store, guarded, c.spec, c.stage, prior, m, c.dry);
    }
  }

  /** What was stored at any moment of a run is stored, unchanged and in place, at its end. */
  lemma {:induction false} RunExtends(guarded: bool, calls: seq<Call>, k: nat)
    requires k <= |calls|
    ensures Extends(RunCalls(guarded, calls[..k]), RunCalls(guarded, calls))
  {
    if k < |calls| {
      var front := calls[..|calls| - 1];
      assert front[..k] == calls[..k];
      RunExtends(guarded, front, k);
      var a, b, c := RunCalls(guarded, calls[..k]), RunCalls(guarded, front), RunCalls(guarded, calls);
      NextExtends(b, guarded, calls[|calls| - 1]);
      assert c.results[..|a.results|] == c.results[..|b.results|][..|a.results|];
    } else {
      assert calls[..k] == calls;
    }
  }

  // ------------------------------------------------------------------ two development results

  /** A stage over one event that passes every test. */
  lemma SingleEvent(c: Context, e: EventRow, frozen: Option<Rule>) returns (record: Record)
    requires Reasons(c, e) == [] && e.delay.Some?
    ensures Usable(c, [e]) == [e]
    ensures StageResult(c, Development, [e], [e], frozen) == Done(record)
    ensures record.rule == Rule(e.delay.value as real) && record.split.earlyMean == Some(ReturnOf(c)(e))
    ensures record.stage == Development && (record.key, record.version) == PlanKey(c.spec)
  {
    var delay := e.delay.value;
    assert [e][1..] == [];
    assert Filter([e], IsUsable(c)) == [e];
    assert Map([e], DelayOf) == [delay];
    SingleMedian(delay);
    var early := IsEarly(delay as real);
    assert early(e);
    assert Filter([e], early) == [e];
    SingleMean(c, e);
    record := StageResult(c, Development, [e], [e], frozen).value;
  }

  lemma SingleMedian(delay: int)
    ensures Median([delay]) == delay as real
  {
    assert [delay][1..] == [];
    assert SortBy([delay], IntLe) == [delay];
  }

  lemma SingleMean(c: Context, e: EventRow)
    ensures Mean(Map([e], ReturnOf(c))) == Some(ReturnOf(c)(e))
  {
    var x := ReturnOf(c)(e);
    assert [e][1..] == [] && [x][1..] == [];
    assert Map([e], ReturnOf(c)) == [x];
    assert Sum([x]) == x;
  }

  function ExampleSpec(): Spec {
    Spec("study", 1,
         EventFilter(None, None, [], [], [], [], [], None, None, None, None, None, None, None, None, None, None,
                     Versions("feature", "detector", "classifier"), "earnings_date_asc", None, 0),
         "outcome", Period(0, 10), Period(20, 30), Higher, 1, 1, ["assumption"], ["limitation"], ["failure mode"])
  }

  function ExampleEvent(): EventRow {
    EventRow("AAA", 5, Some("amc"), None, None, None, Some(COMPLETE), None, None, None, None, None, Some(1), None, None,
             None, [])
  }

  function ExampleOutcome(digest: string, close: real): OutcomeRow {
    OutcomeRow("AAA", 5, COMPLETE, digest, Some(close), [])
  }

  /** The stored outcomes of the event: one at first, then a corrected one beside it. */
  function ExampleOutcomes(corrected: bool): seq<OutcomeRow> {
    [ExampleOutcome("b", 1.0)] + if corrected then [ExampleOutcome("a", 2.0)] else []
  }

  function ExampleClose(corrected: bool): real {
    if corrected then 2.0 else 1.0
  }

  function ExampleEvaluation(corrected: bool): Call {
    Evaluate(ExampleSpec(), Development, [ExampleEvent()], ExampleOutcomes(corrected), false)
  }

  lemma OneChosen(o: OutcomeRow)
    ensures Chosen([o]) == map[KeyOf(o) := o]
  {
    assert [o][1..] == [];
    assert Keys([o]) == {KeyOf(o)};
    assert ForKey(KeyOf(o))(o);
    assert Filter([o], ForKey(KeyOf(o))) == [o] + Filter([o][1..], ForKey(KeyOf(o)));
    assert SortBy([o], Preferred) == [o];
  }

  lemma SecondChosen(x: OutcomeRow, y: OutcomeRow)
    requires KeyOf(x) == KeyOf(y) && !Preferred(x, y)
    ensures Chosen([x, y]) == map[KeyOf(y) := y]
  {
    var key := KeyOf(y);
    assert [x, y][1..] == [y] && [y][1..] == [];
    assert Keys([x, y]) == {key};
    assert ForKey(key)(x) && ForKey(key)(y);
    assert Filter([y], ForKey(key)) == [y] + Filter([y][1..], ForKey(key));
    assert Filter([x, y], ForKey(key)) == [x] + Filter([x, y][1..], ForKey(key)) == [x, y];
    assert SortBy([y], Preferred) == [y];
    assert Insert(x, [y], Preferred) == [y] + Insert(x, [y][1..], Preferred) == [y, x];
    assert SortBy([x, y], Preferred) == [y, x];
  }

  lemma ExampleChosen(corrected: bool)
    ensures var chosen := Chosen(ExampleOutcomes(corrected));
            ("AAA", 5) in chosen && chosen[("AAA", 5)].status == COMPLETE
            && chosen[("AAA", 5)].close == Some(ExampleClose(corrected))
  {
    var first, second := ExampleOutcome("b", 1.0), ExampleOutcome("a", 2.0);
    if corrected {
      assert ExampleOutcomes(corrected) == [first, second];
      SecondChosen(first, second);
    } else {
      assert ExampleOutcomes(corrected) == [first];
      OneChosen(first);
    }
  }

  /** The outcome table is append-only: the later evaluation reads what the first one read and more. */
  ghost predicate OutcomesOnlyAdded(first: seq<OutcomeRow>, second: seq<OutcomeRow>) {
    DistinctDigests(second) && first <= second
  }

  lemma ExampleOutcomesAdded()
    ensures OutcomesOnlyAdded(ExampleOutcomes(false), ExampleOutcomes(true))
  {
    assert ExampleOutcomes(true) == [ExampleOutcome("b", 1.0), ExampleOutcome("a", 2.0)];
  }

  lemma ExamplePasses(corrected: bool) returns (c: Context)
    ensures c == ContextOf(ExampleSpec(), Development, ExampleOutcomes(corrected))
    ensures Reasons(c, ExampleEvent()) == [] && ReturnOf(c)(ExampleEvent()) == ExampleClose(corrected)
  {
    c := ContextOf(ExampleSpec(), Development, ExampleOutcomes(corrected));
    ExampleChosen(corrected);
    FilterLaws.UniverseRefusesNothing(ExampleEvent(), ExampleSpec().filter, 0, 10);
    assert c.selected == UniverseFilter(ExampleSpec().filter, 0, 10);
  }

  lemma ExampleStage(corrected: bool, frozen: Option<Rule>) returns (record: Record)
    ensures Materialize(ExampleSpec(), Development, [ExampleEvent()], ExampleOutcomes(corrected), frozen)
            == Done(record)
    ensures record.rule == Rule(1.0) && record.split.earlyMean == Some(ExampleClose(corrected))
    ensures record.stage == Development && (record.key, record.version) == PlanKey(ExampleSpec())
  {
    var c := ExamplePasses(corrected);
    record := SingleEvent(c, ExampleEvent(), frozen);
  }

  /** What the code does with a development stage that was computed and not stored before. */
  lemma DevelopmentInserted(store: Store, c: Call, prior: seq<ResultRow>, dev: Option<ResultRow>, frozen: Option<Rule>,
                            m: Outcome<Record>)
    requires c.Evaluate? && !c.dry && PlanMatches(store, c.spec)
    requires prior == Prior(store.results, PlanKey(c.spec)) && dev == LastDevelopment(prior)
             && frozen == FrozenRule(dev)
    requires m == Materialize(c.spec, c.stage, c.universe, c.outcomes, frozen)
    requires c.stage.Development? && m.Done? && m.value.stage.Development?
    requires dev.Some? ==> m.value.rule == dev.value.record.rule
    requires !HasRecord(prior, m.value)
    ensures Next(store, false, c) == (store.(results := store.results + [NewRow(prior, dev, m.value)]), Inserted)
  {
    DevelopmentConcluded(store, prior, dev, m.value);
  }

  /** The code itself lets a second development result through whenever its record is new and
      its rule the frozen one; only the table refuses it. */
  lemma SecondDevelopment(store: Store, c: Call, m: Outcome<Record>)
    requires c.Evaluate? && !c.dry && c.stage.Development? && PlanMatches(store, c.spec)
    requires var rs := Filter(store.results, OfStudy(PlanKey(c.spec)));
             && SealedHistory(rs) && rs != []
             && m == Materialize(c.spec, c.stage, c.universe, c.outcomes, FrozenRule(LastDevelopment(rs)))
             && m.Done? && m.value.rule == rs[0].record.rule && !HasRecord(rs, m.value)
    ensures Next(store, false, c).1 == Inserted
    ensures Next(store, true, c) == (store, Refused(TableRefused))
  {
    var rs := Filter(store.results, OfStudy(PlanKey(c.spec)));
    PriorIsHistory(store.results, PlanKey(c.spec));
    var dev := DevelopmentRule(rs);
    StageNamed(c.spec, c.stage, c.universe, c.outcomes, FrozenRule(dev), m);
    DevelopmentInserted(store, c, rs, dev, FrozenRule(dev), m);
    OnlyDevelopmentCheckFails(store, c);
  }

  lemma StageNamed(spec: Spec, stage: Stage, universe: seq<EventRow>, outcomes: seq<OutcomeRow>, frozen: Option<Rule>,
                   m: Outcome<Record>)
    requires m == Materialize(spec, stage, universe, outcomes, frozen) && m.Done?
    ensures m.value.stage == stage
  {
  }

  lemma DevelopmentRule(rs: seq<ResultRow>) returns (dev: Option<ResultRow>)
    requires SealedHistory(rs) && rs != []
    ensures dev == LastDevelopment(rs) && dev.Some? && dev.value.record.rule == rs[0].record.rule
  {
    LastDevelopmentFound(rs);
    dev := LastDevelopment(rs);
    var k :| 0 <= k < |rs| && rs[k] == dev.value;
    assert rs[k].record.rule == rs[0].record.rule;
  }

  lemma DevelopmentConcluded(store: Store, prior: seq<ResultRow>, dev: Option<ResultRow>, record: Record)
    requires dev == LastDevelopment(prior) && record.stage.Development? && !HasRecord(prior, record)
    requires dev.Some? ==> record.rule == dev.value.record.rule
    ensures Concluded(store, false, prior, record, false)
            == (store.(results := store.results + [NewRow(prior, dev, record)]), Inserted)
  {
  }

  lemma FirstGuarded(store: Store, c: Call)
    requires c.Evaluate? && Disclosed(c.spec) && store.results == []
    ensures Next(store, true, c) == Next(store, false, c)
  {
    OnlyDevelopmentCheckFails(store, c);
  }

  lemma OnePrior(row: ResultRow, key: StudyKey)
    requires RowKey(row) == key
    ensures Filter([row], OfStudy(key)) == [row] && Prior([row], key) == [row]
  {
    assert [row][1..] == [];
    assert OfStudy(key)(row);
    assert Filter([row], OfStudy(key)) == [row] + Filter([row][1..], OfStudy(key));
    assert SortBy([row], GenerationLe) == [row];
  }

  lemma SecondGuarded(store: Store, c: Call, row: ResultRow)
    requires c.Evaluate? && c.stage.Development?
    requires store.results == [row] && RowKey(row) == PlanKey(c.spec)
    requires row.generation == 1 && row.record.stage.Development?
    requires Next(store, false, c).1 == Inserted
    ensures Next(store, true, c) == (store, Refused(TableRefused))
  {
    OnePrior(row, PlanKey(c.spec));
    OnlyDevelopmentCheckFails(store, c);
  }

  lemma FirstInserted(store: Store, c: Call, m: Outcome<Record>, row: ResultRow)
    requires c.Evaluate? && !c.dry && PlanMatches(store, c.spec) && store.results == []
    requires m == Materialize(c.spec, c.stage, c.universe, c.outcomes, None)
    requires c.stage.Development? && m.Done? && m.value.stage.Development? && row == NewRow([], None, m.value)
    ensures Next(store, false, c) == (store.(results := [row]), Inserted)
  {
    assert store.results + [row] == [row];
    assert Prior(store.results, PlanKey(c.spec)) == [];
    DevelopmentInserted(store, c, [], None, None, m);
  }

  lemma SecondInserted(store: Store, c: Call, row: ResultRow, m: Outcome<Record>, second: ResultRow)
    requires c.Evaluate? && !c.dry && PlanMatches(store, c.spec)
    requires store.results == [row] && RowKey(row) == PlanKey(c.spec) && row.record.stage.Development?
    requires m == Materialize(c.spec, c.stage, c.universe, c.outcomes, Some(row.record.rule))
    requires c.stage.Development? && m.Done? && m.value.stage.Development?
             && second == NewRow([row], Some(row), m.value)
    requires m.value.rule == row.record.rule && m.value != row.record
    ensures Next(store, false, c) == (store.(results := [row, second]), Inserted)
  {
    assert store.results + [second] == [row, second];
    var prior, dev, frozen := PriorOfOne(row, PlanKey(c.spec), m.value);
    DevelopmentInserted(store, c, prior, dev, frozen, m);
  }

  lemma PriorOfOne(row: ResultRow, key: StudyKey, record: Record)
    returns (prior: seq<ResultRow>, dev: Option<ResultRow>, frozen: Option<Rule>)
    requires RowKey(row) == key && row.record.stage.Development? && record != row.record
    ensures prior == [row] == Prior([row], key) && !HasRecord(prior, record)
    ensures dev == Some(row) == LastDevelopment(prior)
    ensures frozen == Some(row.record.rule) == FrozenRule(dev)
  {
    OnePrior(row, key);
    prior, dev, frozen := [row], Some(row), Some(row.record.rule);
  }

  lemma ExampleFirst(store: Store) returns (row: ResultRow)
    requires PlanMatches(store, ExampleSpec()) && store.results == []
    ensures Next(store, false, ExampleEvaluation(false)) == (store.(results := [row]), Inserted)
    ensures row.generation == 1 && RowKey(row) == PlanKey(ExampleSpec()) && row.record.stage.Development?
    ensures row.record.rule == Rule(1.0) && row.record.split.earlyMean == Some(1.0)
  {
    var record := ExampleStage(false, None);
    row := NewRow([], None, record);
    FirstInserted(store, ExampleEvaluation(false), Done(record), row);
  }

  lemma ExampleSecond(store: Store, row: ResultRow) returns (second: ResultRow)
    requires PlanMatches(store, ExampleSpec()) && store.results == [row]
    requires row.generation == 1 && RowKey(row) == PlanKey(ExampleSpec()) && row.record.stage.Development?
    requires row.record.rule == Rule(1.0) && row.record.split.earlyMean == Some(1.0)
    ensures Next(store, false, ExampleEvaluation(true)) == (store.(results := [row, second]), Inserted)
    ensures RowKey(second) == RowKey(row) && second.record.stage.Development? && second.record != row.record
  {
    var record := ExampleStage(true, Some(row.record.rule));
    second := NewRow([row], Some(row), record);
    SecondInserted(store, ExampleEvaluation(true), row, Done(record), second);
  }

  lemma RunThree(guarded: bool, a: Call, b: Call, c: Call, s1: Store, s2: Store, s3: Store)
    requires s1 == Next(Store(map[], []), guarded, a).0
    requires s2 == Next(s1, guarded, b).0
    requires s3 == Next(s2, guarded, c).0
    ensures RunCalls(guarded, [a, b, c]) == s3
  {
    assert [a, b, c][..2] == [a, b] && [a, b][..1] == [a] && [a][..0] == [];
    assert RunCalls(guarded, [a]) == s1;
    assert RunCalls(guarded, [a, b]) == s2;
  }

  /** Registering a plan and evaluating its development stage twice, with a corrected outcome
      stored beside the first one in between, stores two development results; only the table's check prevents it. */
  lemma SecondDevelopmentRun() returns (calls: seq<Call>)
    ensures |calls| == 3 && calls[0].Register? && calls[1].Evaluate? && calls[2].Evaluate?
    ensures OutcomesOnlyAdded(calls[1].outcomes, calls[2].outcomes)
    ensures var rs := RunCalls(false, calls).results;
            && |rs| == 2 && RowKey(rs[0]) == RowKey(rs[1]) && rs[0].record != rs[1].record
            && rs[0].record.stage.Development? && rs[1].record.stage.Development?
    ensures |RunCalls(true, calls).results| == 1
  {
    var register, first, second := Register(ExampleSpec(), false), ExampleEvaluation(false), ExampleEvaluation(true);
    var registered := Store(map[PlanKey(ExampleSpec()) := Plan(ExampleSpec())], []);
    var row := ExampleFirst(registered);
    var once := registered.(results := [row]);
    var other := ExampleSecond(once, row);
    FirstGuarded(registered, first);
    SecondGuarded(once, second, row);
    calls := [register, first, second];
    ExampleOutcomesAdded();
    RunThree(false, register, first, second, registered, once, once.(results := [row, other]));
    RunThree(true, register, first, second, registered, once, once);
  }

  // ------------------------------------------------------------------ repeats

  /** A study's prior results after an insert. */
  lemma PriorGrows(store: Store, guarded: bool, record: Record)
    requires var mine := (record.key, record.version);
             && Consistent(store, guarded, mine) && mine in store.plans
             && (record.stage.OutOfSample? ==> LastDevelopment(Filter(store.results, OfStudy(mine))).Some?)
             && Concluded(store, guarded, Filter(store.results, OfStudy(mine)), record, false).1 == Inserted
    ensures var mine := (record.key, record.version);
            var rs := Filter(store.results, OfStudy(mine));
            Prior(Concluded(store, guarded, rs, record, false).0.results, mine)
            == rs + [NewRow(rs, LastDevelopment(rs), record)]
  {
    var mine := (record.key, record.version);
    var rs := Filter(store.results, OfStudy(mine));
    var row := NewRow(rs, LastDevelopment(rs), record);
    ConcludeKeeps(store, guarded, record, false, mine);
    FilterConcat(store.results, [row], OfStudy(mine));
    assert Filter([row], OfStudy(mine)) == [row];
    PriorIsHistory(store.results + [row], mine);
  }

  /** The stage result behind an inserted row. */
  lemma InsertedRecord(store: Store, guarded: bool, c: Call) returns (record: Record)
    requires c.Evaluate? && !c.dry && SealedHistory(Filter(store.results, OfStudy(PlanKey(c.spec))))
    requires Next(store, guarded, c).1 == Inserted
    ensures var rs := Filter(store.results, OfStudy(PlanKey(c.spec)));
            && Materialize(c.spec, c.stage, c.universe, c.outcomes, FrozenRule(LastDevelopment(rs))) == Done(record)
            && (record.key, record.version) == PlanKey(c.spec) && record.stage == c.stage
            && PlanMatches(store, c.spec) && (c.stage.OutOfSample? ==> LastDevelopment(rs).Some?)
            && Next(store, guarded, c) == Concluded(store, guarded, rs, record, false)
  {
    PriorIsHistory(store.results, PlanKey(c.spec));
    var dev := LastDevelopment(Prior(store.results, PlanKey(c.spec)));
    record := Materialize(c.spec, c.stage, c.universe, c.outcomes, FrozenRule(dev)).value;
  }

  /** A computed record passes the table's checks on records exactly when its specification makes
      its disclosures. */
  lemma StageRecordChecks(spec: Spec, stage: Stage, universe: seq<EventRow>, outcomes: seq<OutcomeRow>,
                          frozen: Option<Rule>)
    requires Materialize(spec, stage, universe, outcomes, frozen).Done?
    ensures RecordChecks(Materialize(spec, stage, universe, outcomes, frozen).value) <==> Disclosed(spec)
  {
    var c := ContextOf(spec, stage, outcomes);
    FilterMembers(universe, IsUsable(c));
    StageResultChecks(c, stage, universe, Usable(c, universe), frozen);
  }

  lemma StageResultChecks(c: Context, stage: Stage, universe: seq<EventRow>, usable: seq<EventRow>,
                          frozen: Option<Rule>)
    requires |usable| <= |universe| && StageResult(c, stage, universe, usable, frozen).Done?
    ensures RecordChecks(StageResult(c, stage, universe, usable, frozen).value) <==> Disclosed(c.spec)
  {
    var rule := RuleFor(stage, usable, frozen).value;
    AssembledChecks(c.spec, stage, Map(universe, MemberOf(c)), |usable|, |Filter(universe, IsEligible(c.selected))|,
                    SplitAt(c, usable, rule.threshold), rule);
  }

  lemma AssembledChecks(spec: Spec, stage: Stage, members: seq<Member>, included: nat, eligible: nat, split: Split,
                        rule: Rule)
    requires included <= |members|
    ensures RecordChecks(Assemble(spec, stage, members, included, eligible, split, rule)) <==> Disclosed(spec)
  {
  }

  ghost predicate Disclosed(spec: Spec) {
    spec.assumptions != [] && spec.limitations != [] && spec.failureModes != []
  }

  /** The table changes the answer of exactly those evaluations that would store a second
      development result or a result without disclosures. */
  lemma OnlyDevelopmentCheckFails(store: Store, c: Call)
    requires c.Evaluate? && SealedHistory(Filter(store.results, OfStudy(PlanKey(c.spec))))
    ensures var rs := Filter(store.results, OfStudy(PlanKey(c.spec)));
            Next(store, true, c)
            == if Next(store, false, c).1 == Inserted && ((c.stage.Development? && rs != []) || !Disclosed(c.spec))
               then (store, Refused(TableRefused)) else Next(store, false, c)
  {
    var rs := Filter(store.results, OfStudy(PlanKey(c.spec)));
    PriorIsHistory(store.results, PlanKey(c.spec));
    var m := Materialize(c.spec, c.stage, c.universe, c.outcomes, FrozenRule(LastDevelopment(rs)));
    if Next(store, false, c).1 == Inserted {
      DryNeverInserts(store, c.spec, c.stage, rs, m);
      var record := InsertedRecord(store, false, c);
      StageRecordChecks(c.spec, c.stage, c.universe, c.outcomes, FrozenRule(LastDevelopment(rs)));
      NewRowChecks(store, PlanKey(c.spec), record);
      GuardedConcludes(store, rs, record);
    } else {
      OtherwiseAlike(store, c.spec, c.stage, rs, m, c.dry);
    }
  }

  lemma DryNeverInserts(store: Store, spec: Spec, stage: Stage, prior: seq<ResultRow>, m: Outcome<Record>)
    ensures Finished(store, false, spec, stage, prior, m, true).1 != Inserted
  {
  }

  lemma OtherwiseAlike(store: Store, spec: Spec, stage: Stage, prior: seq<ResultRow>, m: Outcome<Record>, dry: bool)
    requires Finished(store, false, spec, stage, prior, m, dry).1 != Inserted
    ensures Finished(store, true, spec, stage, prior, m, dry) == Finished(store, false, spec, stage, prior, m, dry)
  {
  }

  lemma GuardedConcludes(store: Store, prior: seq<ResultRow>, record: Record)
    requires Concluded(store, false, prior, record, false).1 == Inserted
    ensures Concluded(store, true, prior, record, false)
            == if TableAccepts(store, NewRow(prior, LastDevelopment(prior), record))
               then Concluded(store, false, prior, record, false) else (store, Refused(TableRefused))
  {
  }

  lemma FindsRecord(store: Store, guarded: bool, c: Call, prior: seq<ResultRow>, record: Record)
    requires c.Evaluate? && PlanMatches(store, c.spec) && Prior(store.results, PlanKey(c.spec)) == prior
    requires LastDevelopment(prior).Some? && LastDevelopment(prior).value.record.rule == record.rule
    requires Materialize(c.spec, c.stage, c.universe, c.outcomes, Some(record.rule)) == Done(record)
    requires HasRecord(prior, record)
    ensures Next(store, guarded, c) == (store, AlreadyPresent)
  {
  }

  /** After the insert, the last development result holds the inserted record's rule. */
  lemma RuleStays(rs: seq<ResultRow>, record: Record)
    requires LastDevelopment(rs).Some? ==> record.rule == LastDevelopment(rs).value.record.rule
    requires record.stage.OutOfSample? ==> LastDevelopment(rs).Some?
    ensures var grown := rs + [NewRow(rs, LastDevelopment(rs), record)];
            LastDevelopment(grown).Some? && LastDevelopment(grown).value.record.rule == record.rule
                && HasRecord(grown, record)
  {
    var row := NewRow(rs, LastDevelopment(rs), record);
    assert (rs + [row])[|rs|].record == record;
  }

  /** Evaluating the same evidence again, with its rows in any order, finds the stored result. */
  lemma RepeatIsPresent(store: Store, guarded: bool, first: Call, again: Call)
    requires first.Evaluate? && !first.dry && Consistent(store, guarded, PlanKey(first.spec))
    requires again.Evaluate? && again.spec == first.spec && again.stage == first.stage
    requires multiset(again.universe) == multiset(first.universe) && DistinctEvents(first.universe)
    requires multiset(again.outcomes) == multiset(first.outcomes) && DistinctDigests(first.outcomes)
    requires Next(store, guarded, first).1 == Inserted
    ensures Next(Next(store, guarded, first).0, guarded, again) == (Next(store, guarded, first).0, AlreadyPresent)
  {
    var rs := Filter(store.results, OfStudy(PlanKey(first.spec)));
    var record := InsertedRecord(store, guarded, first);
    PriorGrows(store, guarded, record);
    RuleStays(rs, record);
    ResultForgetsOrder(first.spec, first.stage, first.universe, again.universe, first.outcomes, again.outcomes,
                       Some(record.rule));
    var after := Next(store, guarded, first).0;
    NextExtends(store, guarded, first);
    FindsRecord(after, guarded, again, rs + [NewRow(rs, LastDevelopment(rs), record)], record);
  }

  // ------------------------------------------------------------------ equal plans

  /** The parts of a plan a stage reads besides its filter. */
  lemma ContextsAgree(a: Spec, b: Spec, stage: Stage, outcomes: seq<OutcomeRow>, e: EventRow)
    requires Plan(a) == Plan(b)
    ensures var (ca, cb) := (ContextOf(a, stage, outcomes), ContextOf(b, stage, outcomes));
            && Judged(ca, e) == Judged(cb, e)
            && IsUsable(ca)(e) == IsUsable(cb)(e)
            && IsEligible(ca.selected)(e) == IsEligible(cb.selected)(e)
            && ReturnOf(ca)(e) == ReturnOf(cb)(e)
  {
    var (ca, cb) := (ContextOf(a, stage, outcomes), ContextOf(b, stage, outcomes));
    assert CanonicalRecord(a.filter) == CanonicalRecord(b.filter);
    assert a.(filter := b.filter) == b by {
      assert Plan(a).(filter := b.filter) == Plan(b).(filter := b.filter);
    }
    assert CanonicalRecord(ca.selected) == CanonicalRecord(cb.selected) by {
      CanonicalExactly(a.filter, b.filter);
      CanonicalExactly(ca.selected, cb.selected);
    }
    CanonicalDecides(ca.selected, cb.selected, e);
    assert ca.selected.versions == cb.selected.versions;
  }

  lemma SidesAgree(a: Spec, b: Spec, stage: Stage, usable: seq<EventRow>, outcomes: seq<OutcomeRow>,
                   side: EventRow -> bool)
    requires Plan(a) == Plan(b)
    ensures Map(Filter(usable, side), ReturnOf(ContextOf(a, stage, outcomes)))
            == Map(Filter(usable, side), ReturnOf(ContextOf(b, stage, outcomes)))
  {
    var chosen := Filter(usable, side);
    forall i | 0 <= i < |chosen|
      ensures ReturnOf(ContextOf(a, stage, outcomes))(chosen[i]) == ReturnOf(ContextOf(b, stage, outcomes))(chosen[i])
    {
      ContextsAgree(a, b, stage, outcomes, chosen[i]);
    }
    MapSame(chosen, ReturnOf(ContextOf(a, stage, outcomes)), ReturnOf(ContextOf(b, stage, outcomes)));
  }

  /** Specifications that agree on their canonical content compute the same result. */
  lemma SamePlanSameResult(a: Spec, b: Spec, stage: Stage, universe: seq<EventRow>, outcomes: seq<OutcomeRow>,
                           frozen: Option<Rule>)
    requires Plan(a) == Plan(b)
    ensures Materialize(a, stage, universe, outcomes, frozen) == Materialize(b, stage, universe, outcomes, frozen)
  {
    var ca, cb := ContextOf(a, stage, outcomes), ContextOf(b, stage, outcomes);
    forall i | 0 <= i < |universe|
      ensures MemberOf(ca)(universe[i]) == MemberOf(cb)(universe[i])
      ensures IsUsable(ca)(universe[i]) == IsUsable(cb)(universe[i])
      ensures IsEligible(ca.selected)(universe[i]) == IsEligible(cb.selected)(universe[i])
    {
      ContextsAgree(a, b, stage, outcomes, universe[i]);
    }
    MapSame(universe, MemberOf(ca), MemberOf(cb));
    FilterSame(universe, IsUsable(ca), IsUsable(cb));
    FilterSame(universe, IsEligible(ca.selected), IsEligible(cb.selected));
    FilterMembers(universe, IsUsable(ca));
    var usable := Usable(ca, universe);
    if RuleFor(stage, usable, frozen).Some? {
      var threshold := RuleFor(stage, usable, frozen).value.threshold;
      SidesAgree(a, b, stage, usable, outcomes, IsEarly(threshold));
      SidesAgree(a, b, stage, usable, outcomes, IsLate(threshold));
    }
    assert Plan(a).(filter := b.filter) == Plan(b).(filter := b.filter);
    StageResultAlike(ca, cb, stage, universe, usable, frozen);
  }

  lemma StageResultAlike(ca: Context, cb: Context, stage: Stage, universe: seq<EventRow>, usable: seq<EventRow>,
                         frozen: Option<Rule>)
    requires ca.spec.(filter := cb.spec.filter) == cb.spec
    requires |usable| <= |universe|
    requires Map(universe, MemberOf(ca)) == Map(universe, MemberOf(cb))
    requires |Filter(universe, IsEligible(ca.selected))| == |Filter(universe, IsEligible(cb.selected))|
    requires RuleFor(stage, usable, frozen).Some? ==>
               SplitAt(ca, usable, RuleFor(stage, usable, frozen).value.threshold)
               == SplitAt(cb, usable, RuleFor(stage, usable, frozen).value.threshold)
    ensures StageResult(ca, stage, universe, usable, frozen) == StageResult(cb, stage, universe, usable, frozen)
  {
    if RuleFor(stage, usable, frozen).Some? && usable != [] {
      var rule := RuleFor(stage, usable, frozen).value;
      AssembleAlike(ca.spec, cb.spec, stage, Map(universe, MemberOf(ca)), |usable|,
                    |Filter(universe, IsEligible(ca.selected))|,
                    SplitAt(ca, usable, rule.threshold), rule);
    }
  }

  lemma AssembleAlike(a: Spec, b: Spec, stage: Stage, members: seq<Member>, included: nat, eligible: nat, split: Split,
                      rule: Rule)
    requires a.(filter := b.filter) == b && included <= |members|
    ensures Assemble(a, stage, members, included, eligible, split, rule)
            == Assemble(b, stage, members, included, eligible, split, rule)
  {
  }
}
