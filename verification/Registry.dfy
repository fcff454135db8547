/** The append-only registry of studies: plans registered once, results added once, and an
    out-of-sample stage that stays sealed until development has frozen a rule. Digests are
    compared through the records they are taken of. */
module Registry {
  import opened Sequences
  import opened Filters
  import opened Cohort

  type StudyKey = (string, int)

  datatype ResultRow = ResultRow(generation: int, record: Record, developmentGeneration: Option<int>)

  datatype Store = Store(plans: map<StudyKey, Spec>, results: seq<ResultRow>)

  datatype Refusal =
    | DifferentContent | NotRegistered | Sealed | StageFailed(failure: Failure)
    | RuleDiffers | OutOfSampleDone | TableRefused

  datatype Reply = DryRun | AlreadyPresent | Inserted | Refused(refusal: Refusal)

  datatype Call =
    | Register(spec: Spec, dry: bool)
    | Evaluate(spec: Spec, stage: Stage, universe: seq<EventRow>, outcomes: seq<OutcomeRow>, dry: bool)

  function PlanKey(spec: Spec): StudyKey {
    (spec.key, spec.version)
  }

  /** The canonical content of a plan. */
  function Plan(spec: Spec): Spec {
    spec.(filter := CanonicalRecord(spec.filter))
  }

  function RowKey(row: ResultRow): StudyKey {
    (row.record.key, row.record.version)
  }

  function OfStudy(key: StudyKey): ResultRow -> bool {
    (row: ResultRow) => RowKey(row) == key
  }

  predicate GenerationLe(a: ResultRow, b: ResultRow) {
    a.generation <= b.generation
  }

  /** The stored results of a study, in generation order. */
  function Prior(results: seq<ResultRow>, key: StudyKey): seq<ResultRow> {
    SortBy(Filter(results, OfStudy(key)), GenerationLe)
  }

  function LastDevelopment(prior: seq<ResultRow>): Option<ResultRow> {
    if prior == [] then None
    else if prior[|prior| - 1].record.stage.Development? then Some(prior[|prior| - 1])
    else LastDevelopment(prior[..|prior| - 1])
  }

  function MaxGeneration(prior: seq<ResultRow>): int {
    if prior == [] then 0
    else
      var rest := MaxGeneration(prior[..|prior| - 1]);
      if prior[|prior| - 1].generation > rest then prior[|prior| - 1].generation else rest
  }

  predicate HasRecord(prior: seq<ResultRow>, record: Record) {
    exists i :: 0 <= i < |prior| && prior[i].record == record
  }

  predicate HasOutOfSample(prior: seq<ResultRow>) {
    exists i :: 0 <= i < |prior| && prior[i].record.stage.OutOfSample?
  }

  function FrozenRule(dev: Option<ResultRow>): Option<Rule> {
    if dev.Some? then Some(dev.value.record.rule) else None
  }

  function GenerationOf(dev: Option<ResultRow>): Option<int> {
    if dev.Some? then Some(dev.value.generation) else None
  }

  // ------------------------------------------------------------------ the table's own rules

  predicate RowChecks(row: ResultRow) {
    var r := row.record;
    && row.generation > 0
    && r.counts.universe == r.counts.included + r.counts.excluded
    && (r.stage.Development? ==> row.developmentGeneration.None?)
    && (r.stage.OutOfSample? ==> row.developmentGeneration.Some?)
    && r.assumptions != [] && r.limitations != [] && r.failureModes != []
    && (r.decision.PaperTradeCandidate? ==> r.sampleGate && r.coverageGate)
  }

  predicate KeysFree(results: seq<ResultRow>, row: ResultRow) {
    forall i :: 0 <= i < |results| && RowKey(results[i]) == RowKey(row) ==>
      results[i].generation != row.generation && results[i].record != row.record
  }

  /** The foreign key to, and the trigger on, the development result a row names. */
  predicate NamesDevelopment(results: seq<ResultRow>, row: ResultRow) {
    row.record.stage.OutOfSample? ==>
      exists i :: 0 <= i < |results|
        && RowKey(results[i]) == RowKey(row) && results[i].record.stage.Development?
        && Some(results[i].generation) == row.developmentGeneration && results[i].record.rule == row.record.rule
  }

  predicate TableAccepts(store: Store, row: ResultRow) {
    RowKey(row) in store.plans && RowChecks(row) && KeysFree(store.results, row) && NamesDevelopment(store.results, row)
  }

  // ------------------------------------------------------------------ what each call does

  ghost function Registered(store: Store, spec: Spec, dry: bool): (Store, Reply) {
    if dry then (store, DryRun)
    else if PlanKey(spec) in store.plans then
      (store, if store.plans[PlanKey(spec)] == Plan(spec) then AlreadyPresent else Refused(DifferentContent))
    else (store.(plans := store.plans[PlanKey(spec) := Plan(spec)]), Inserted)
  }

  predicate PlanMatches(store: Store, spec: Spec) {
    PlanKey(spec) in store.plans && store.plans[PlanKey(spec)] == Plan(spec)
  }

  function NewRow(prior: seq<ResultRow>, dev: Option<ResultRow>, record: Record): ResultRow {
    ResultRow(MaxGeneration(prior) + 1, record, GenerationOf(dev))
  }

  /** What follows once the stage has been computed. */
  function Concluded(store: Store, guarded: bool, prior: seq<ResultRow>, record: Record, dry: bool): (Store, Reply) {
    var dev := LastDevelopment(prior);
    var row := NewRow(prior, dev, record);
    if dev.Some? && record.rule != dev.value.record.rule then (store, Refused(RuleDiffers))
    else if HasRecord(prior, record) then (store, AlreadyPresent)
    else if record.stage.OutOfSample? && HasOutOfSample(prior) then (store, Refused(OutOfSampleDone))
    else if dry then (store, DryRun)
    else if guarded && !TableAccepts(store, row) then (store, Refused(TableRefused))
    else (store.(results := store.results + [row]), Inserted)
  }

  /** What an evaluation does with the stage result `m` it computed. */
  function Finished(store: Store, guarded: bool, spec: Spec, stage: Stage, prior: seq<ResultRow>, m: Outcome<Record>,
                    dry: bool): (Store, Reply) {
    if !PlanMatches(store, spec) then (store, Refused(NotRegistered))
    else if stage.OutOfSample? && LastDevelopment(prior).None? then (store, Refused(Sealed))
    else if m.Failed? then (store, Refused(StageFailed(m.failure)))
    else Concluded(store, guarded, prior, m.value, dry)
  }

  ghost function Evaluated(store: Store, guarded: bool, c: Call): (Store, Reply)
    requires c.Evaluate?
  {
    var prior := Prior(store.results, PlanKey(c.spec));
    var m := Materialize(c.spec, c.stage, c.universe, c.outcomes, FrozenRule(LastDevelopment(prior)));
    Finished(store, guarded, c.spec, c.stage, prior, m, c.dry)
  }

  ghost function Next(store: Store, guarded: bool, c: Call): (Store, Reply) {
    if c.Register? then Registered(store, c.spec, c.dry) else Evaluated(store, guarded, c)
  }

  ghost function RunCalls(guarded: bool, calls: seq<Call>): Store {
    if calls == [] then Store(map[], [])
    else Next(RunCalls(guarded, calls[..|calls| - 1]), guarded, calls[|calls| - 1]).0
  }

  // ------------------------------------------------------------------ the registry

  class Registry {
    const guarded: bool
    var plans: map<StudyKey, Spec>
    var results: seq<ResultRow>

    constructor (guarded: bool)
      ensures Contents() == Store(map[], []) && this.guarded == guarded
    {
      this.guarded := guarded;
      plans, results := map[], [];
    }

    function Contents(): Store
      reads this
    {
      Store(plans, results)
    }

    method RegisterStudy(spec: Spec, dry: bool) returns (reply: Reply)
      modifies this
      ensures (Contents(), reply) == Next(old(Contents()), guarded, Register(spec, dry))
    {
      if dry {
        return DryRun;
      }
      var key := PlanKey(spec);
      if key in plans {
        if plans[key] != Plan(spec) {
          return Refused(DifferentContent);
        }
        return AlreadyPresent;
      }
      plans := plans[key := Plan(spec)];
      reply := Inserted;
    }

    /** The prior results of a study and the last development result among them. */
    method FetchPrior(key: StudyKey) returns (prior: seq<ResultRow>, dev: Option<ResultRow>)
      ensures && prior == Prior(results, key)
              && dev == LastDevelopment(prior)
    {
      prior := Prior(results, key);
      dev := None;
      for i := 0 to |prior|
        invariant dev == LastDevelopment(prior[..i])
      {
        assert prior[..i + 1][..i] == prior[..i];
        if prior[i].record.stage.Development? {
          dev := Some(prior[i]);
        }
      }
      assert prior[..|prior|] == prior;
    }

    method Conclude(prior: seq<ResultRow>, dev: Option<ResultRow>, record: Record, dry: bool) returns (reply: Reply)
      requires dev == LastDevelopment(prior)
      modifies this
      ensures (Contents(), reply) == Concluded(old(Contents()), guarded, prior, record, dry)
    {
      if dev.Some? && record.rule != dev.value.record.rule {
        return Refused(RuleDiffers);
      }
      if HasRecord(prior, record) {
        return AlreadyPresent;
      }
      if record.stage.OutOfSample? && HasOutOfSample(prior) {
        return Refused(OutOfSampleDone);
      }
      if dry {
        return DryRun;
      }
      var row := ResultRow(MaxGeneration(prior) + 1, record, if dev.Some? then Some(dev.value.generation) else None);
      if guarded && !TableAccepts(Contents(), row) {
        return Refused(TableRefused);
      }
      results := results + [row];
      reply := Inserted;
    }

    method EvaluateStudy(spec: Spec, stage: Stage, universe: seq<EventRow>, outcomes: seq<OutcomeRow>, dry: bool)
      returns (reply: Reply)
      modifies this
      ensures (Contents(), reply) == Next(old(Contents()), guarded, Evaluate(spec, stage, universe, outcomes, dry))
    {
      var key := PlanKey(spec);
      if key !in plans || plans[key] != Plan(spec) {
        return Refused(NotRegistered);
      }
      var prior, dev := FetchPrior(key);
      if stage.OutOfSample? && dev.None? {
        return Refused(Sealed);
      }
      var m := MaterializeStage(spec, stage, universe, outcomes,
                                if dev.Some? then Some(dev.value.record.rule) else None);
      if m.Failed? {
        return Refused(StageFailed(m.failure));
      }
      reply := Conclude(prior, dev, m.value, dry);
    }
  }
}
