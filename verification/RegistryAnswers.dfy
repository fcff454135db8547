/** What the registry answers to each call, and where every stored row comes from: a result is
    only ever the computed stage of a plan that was registered with the same content. */
module RegistryAnswers {
  import opened Sequences
  import opened Filters
  import opened Cohort
  import opened Registry
  import opened RegistryLaws

  // ------------------------------------------------------------------ registration

  /** The plan stored under the study's key is this plan, in canonical form. */
  predicate IsRegistered(store: Store, spec: Spec) {
    (spec.key, spec.version) in store.plans && store.plans[(spec.key, spec.version)] == Plan(spec)
  }

  /** A registration: nothing but a new plan under a free key changes the store. */
  lemma RegisterAnswer(store: Store, guarded: bool, c: Call)
    requires c.Register?
    ensures var key := (c.spec.key, c.spec.version);
            var (after, reply) := Next(store, guarded, c);
            && (reply == Inserted <==> !c.dry && key !in store.plans)
            && (reply == AlreadyPresent <==> !c.dry && IsRegistered(store, c.spec))
            && (reply == Refused(DifferentContent) <==> !c.dry && key in store.plans && !IsRegistered(store, c.spec))
            && after.results == store.results
            && after.plans == if reply == Inserted then store.plans[key := Plan(c.spec)] else store.plans
  {
  }

  /** An evaluation is refused as unregistered exactly when no plan, or a different one, is
      stored under the study's key. */
  lemma NotRegisteredExactly(store: Store, guarded: bool, c: Call)
    requires c.Evaluate?
    ensures Next(store, guarded, c).1 == Refused(NotRegistered) <==>
            (c.spec.key, c.spec.version) !in store.plans || store.plans[(c.spec.key, c.spec.version)] != Plan(c.spec)
    ensures !IsRegistered(store, c.spec) ==> Next(store, guarded, c) == (store, Refused(NotRegistered))
  {
    var prior := Prior(store.results, PlanKey(c.spec));
    var m := Materialize(c.spec, c.stage, c.universe, c.outcomes, FrozenRule(LastDevelopment(prior)));
    RegisteredFinish(store, guarded, c.spec, c.stage, prior, m, c.dry);
  }

  lemma RegisteredFinish(store: Store, guarded: bool, spec: Spec, stage: Stage, prior: seq<ResultRow>,
                         m: Outcome<Record>, dry: bool)
    ensures Finished(store, guarded, spec, stage, prior, m, dry).1 == Refused(NotRegistered)
            <==> !IsRegistered(store, spec)
    ensures !IsRegistered(store, spec) ==>
              Finished(store, guarded, spec, stage, prior, m, dry) == (store, Refused(NotRegistered))
  {
  }

  // ------------------------------------------------------------------ evaluation

  /** The rule the stored results of a study have in common. */
  function RuleSoFar(rs: seq<ResultRow>): Option<Rule> {
    if rs == [] then None else Some(rs[0].record.rule)
  }

  /** The reply to an evaluation, read off the stored results of the study. */
  function Verdict(registered: bool, rs: seq<ResultRow>, c: Call, m: Outcome<Record>): Reply
    requires c.Evaluate?
  {
    if !registered then Refused(NotRegistered)
    else if c.stage.OutOfSample? && rs == [] then Refused(Sealed)
    else if m.Failed? then Refused(StageFailed(m.failure))
    else if rs != [] && m.value.rule != rs[0].record.rule then Refused(RuleDiffers)
    else if exists r :: r in rs && r.record == m.value then AlreadyPresent
    else if c.stage.OutOfSample? && exists r :: r in rs && r.record.stage.OutOfSample? then Refused(OutOfSampleDone)
    else if c.dry then DryRun
    else Inserted
  }

  lemma FirstRule(rs: seq<ResultRow>)
    requires SealedHistory(rs)
    ensures FrozenRule(LastDevelopment(rs)) == RuleSoFar(rs)
    ensures LastDevelopment(rs).None? <==> rs == []
  {
    if rs != [] {
      var dev := DevelopmentRule(rs);
    }
  }

  /** Without the table an evaluation is answered by the registered plan, the seal, the stage,
      the frozen rule and what is already stored, in that order. */
  lemma EvaluateAnswer(store: Store, c: Call)
    requires c.Evaluate? && Consistent(store, false, (c.spec.key, c.spec.version))
    ensures var rs := Filter(store.results, OfStudy((c.spec.key, c.spec.version)));
            var m := Materialize(c.spec, c.stage, c.universe, c.outcomes, RuleSoFar(rs));
            Next(store, false, c).1 == Verdict(IsRegistered(store, c.spec), rs, c, m)
  {
    var key := (c.spec.key, c.spec.version);
    var rs := Filter(store.results, OfStudy(key));
    PriorIsHistory(store.results, key);
    FirstRule(rs);
    var m := Materialize(c.spec, c.stage, c.universe, c.outcomes, RuleSoFar(rs));
    StageOf(c.spec, c.stage, c.universe, c.outcomes, RuleSoFar(rs), m);
    FinishedAnswer(store, c, rs, m);
  }

  lemma StageOf(spec: Spec, stage: Stage, universe: seq<EventRow>, outcomes: seq<OutcomeRow>, frozen: Option<Rule>,
                m: Outcome<Record>)
    requires m == Materialize(spec, stage, universe, outcomes, frozen)
    ensures m.Done? ==> m.value.stage == stage && (m.value.key, m.value.version) == (spec.key, spec.version)
  {
  }

  lemma FinishedAnswer(store: Store, c: Call, rs: seq<ResultRow>, m: Outcome<Record>)
    requires c.Evaluate? && SealedHistory(rs) && (m.Done? ==> m.value.stage == c.stage)
    requires FrozenRule(LastDevelopment(rs)) == RuleSoFar(rs) && (LastDevelopment(rs).None? <==> rs == [])
    ensures Finished(store, false, c.spec, c.stage, rs, m, c.dry).1 == Verdict(IsRegistered(store, c.spec), rs, c, m)
  {
    if m.Done? {
      HasRecordMeaning(rs, m.value);
    }
  }

  lemma HasRecordMeaning(rs: seq<ResultRow>, record: Record)
    ensures HasRecord(rs, record) <==> exists r :: r in rs && r.record == record
    ensures HasOutOfSample(rs) <==> exists r :: r in rs && r.record.stage.OutOfSample?
  {
  }

  // ------------------------------------------------------------------ where stored rows come from

  /** A call computes a record, under a frozen rule. */
  type Computing = (Call, Option<Rule>, Record) -> bool

  ghost function Computes(): Computing {
    (c: Call, frozen: Option<Rule>, r: Record) =>
      c.Evaluate? && Materialize(c.spec, c.stage, c.universe, c.outcomes, frozen) == Done(r)
  }

  /** Row `i` is the stage that call `c` computed, for the plan stored under the row's key, under
      the rule of the study's earlier results. */
  ghost predicate StoredBy(computes: Computing, results: seq<ResultRow>, plans: map<StudyKey, Spec>, c: Call, i: nat)
    requires i < |results|
  {
    && c.Evaluate? && !c.dry
    && var key := (results[i].record.key, results[i].record.version);
       && key == (c.spec.key, c.spec.version)
       && key in plans && plans[key] == Plan(c.spec)
       && computes(c, RuleSoFar(Filter(results[..i], OfStudy(key))), results[i].record)
  }

  ghost predicate AllStored(computes: Computing, store: Store, calls: seq<Call>) {
    forall i :: 0 <= i < |store.results| ==> HasOrigin(computes, store, calls, i)
  }

  ghost predicate HasOrigin(computes: Computing, store: Store, calls: seq<Call>, i: nat)
    requires i < |store.results|
  {
    exists j :: 0 <= j < |calls| && StoredBy(computes, store.results, store.plans, calls[j], i)
  }

  /** Every plan is the canonical content of a registration. */
  ghost predicate AllRegistered(store: Store, calls: seq<Call>) {
    forall key :: key in store.plans ==> exists j :: 0 <= j < |calls| && RegisteredBy(store.plans[key], key, calls[j])
  }

  ghost predicate RegisteredBy(plan: Spec, key: StudyKey, c: Call) {
    c.Register? && !c.dry && (c.spec.key, c.spec.version) == key && plan == Plan(c.spec)
  }

  lemma NewRowStored(store: Store, guarded: bool, c: Call)
    requires c.Evaluate? && Consistent(store, guarded, (c.spec.key, c.spec.version))
    requires Next(store, guarded, c).1 == Inserted
    ensures var after := Next(store, guarded, c).0;
            && |after.results| == |store.results| + 1 && after.results[..|store.results|] == store.results
            && after.plans == store.plans && StoredBy(Computes(), after.results, after.plans, c, |store.results|)
  {
    var rs := Filter(store.results, OfStudy(PlanKey(c.spec)));
    InsertedNotDry(store, guarded, c);
    var record := InsertedRecord(store, guarded, c);
    FirstRule(rs);
    ConcludedAdds(store, guarded, rs, record, false);
  }

  lemma InsertedNotDry(store: Store, guarded: bool, c: Call)
    requires c.Evaluate? && Next(store, guarded, c).1 == Inserted
    ensures !c.dry
  {
    var prior := Prior(store.results, PlanKey(c.spec));
    var m := Materialize(c.spec, c.stage, c.universe, c.outcomes, FrozenRule(LastDevelopment(prior)));
    DryFinish(store, guarded, c.spec, c.stage, prior, m);
  }

  lemma DryFinish(store: Store, guarded: bool, spec: Spec, stage: Stage, prior: seq<ResultRow>, m: Outcome<Record>)
    ensures Finished(store, guarded, spec, stage, prior, m, true).1 != Inserted
  {
  }

  lemma StoredStays(computes: Computing, store: Store, after: Store, c: Call, i: nat)
    requires i < |store.results| && Extends(store, after) && StoredBy(computes, store.results, store.plans, c, i)
    ensures StoredBy(computes, after.results, after.plans, c, i)
  {
    assert after.results[..|store.results|][..i] == after.results[..i];
    assert after.results[i] == after.results[..|store.results|][i];
    assert store.results[..i] == after.results[..i];
  }

  lemma OriginStays(computes: Computing, store: Store, after: Store, calls: seq<Call>, c: Call, i: nat)
    requires i < |store.results| && Extends(store, after) && HasOrigin(computes, store, calls, i)
    ensures HasOrigin(computes, after, calls + [c], i)
  {
    var j :| 0 <= j < |calls| && StoredBy(computes, store.results, store.plans, calls[j], i);
    StoredStays(computes, store, after, calls[j], i);
    assert (calls + [c])[j] == calls[j];
  }

  lemma NewOrigin(computes: Computing, after: Store, calls: seq<Call>, c: Call, i: nat)
    requires i < |after.results| && StoredBy(computes, after.results, after.plans, c, i)
    ensures HasOrigin(computes, after, calls + [c], i)
  {
    assert (calls + [c])[|calls|] == c;
  }

  lemma RowAdded(computes: Computing, store: Store, after: Store, calls: seq<Call>, c: Call)
    requires AllStored(computes, store, calls) && Extends(store, after)
    requires |after.results| <= |store.results| + 1
    requires |after.results| > |store.results| ==> StoredBy(computes, after.results, after.plans, c, |store.results|)
    ensures AllStored(computes, after, calls + [c])
  {
    forall i | 0 <= i < |after.results| ensures HasOrigin(computes, after, calls + [c], i) {
      if i < |store.results| {
        OriginStays(computes, store, after, calls, c, i);
      } else {
        NewOrigin(computes, after, calls, c, i);
      }
    }
  }

  lemma StepStored(store: Store, guarded: bool, calls: seq<Call>, c: Call, after: Store)
    requires AllStored(Computes(), store, calls) && forall key :: Consistent(store, guarded, key)
    requires after == Next(store, guarded, c).0
    ensures AllStored(Computes(), after, calls + [c])
  {
    AddedByCall(store, guarded, c, after);
    RowAdded(Computes(), store, after, calls, c);
  }

  lemma AddedByCall(store: Store, guarded: bool, c: Call, after: Store)
    requires (forall key :: Consistent(store, guarded, key)) && after == Next(store, guarded, c).0
    ensures Extends(store, after) && |after.results| <= |store.results| + 1
    ensures |after.results| > |store.results| ==> StoredBy(Computes(), after.results, after.plans, c, |store.results|)
  {
    NextExtends(store, guarded, c);
    if c.Evaluate? && Next(store, guarded, c).1 == Inserted {
      assert Consistent(store, guarded, (c.spec.key, c.spec.version));
      NewRowStored(store, guarded, c);
    } else {
      NothingStored(store, guarded, c);
    }
  }

  lemma NothingStored(store: Store, guarded: bool, c: Call)
    requires !(c.Evaluate? && Next(store, guarded, c).1 == Inserted)
    ensures Next(store, guarded, c).0.results == store.results
  {
    NextExtends(store, guarded, c);
  }

  lemma RunStored(guarded: bool, front: seq<Call>, last: Call, before: Store)
    requires before == RunCalls(guarded, front) && AllStored(Computes(), before, front)
    ensures AllStored(Computes(), Next(before, guarded, last).0, front + [last])
  {
    EveryRunStaysSealed(guarded, front);
    StepStored(before, guarded, front, last, Next(before, guarded, last).0);
  }

  lemma RunUnfolds(guarded: bool, front: seq<Call>, last: Call)
    ensures RunCalls(guarded, front + [last]) == Next(RunCalls(guarded, front), guarded, last).0
  {
    assert (front + [last])[..|front|] == front;
  }

  /** Over every run, each stored result is the computed stage of one of its evaluations, of the
      very plan that is stored under its key. */
  lemma {:induction false} StoredWereRegistered(guarded: bool, calls: seq<Call>)
    ensures AllStored(Computes(), RunCalls(guarded, calls), calls)
  {
    if calls != [] {
      var front, last := calls[..|calls| - 1], calls[|calls| - 1];
      StoredWereRegistered(guarded, front);
      RunStored(guarded, front, last, RunCalls(guarded, front));
      RunUnfolds(guarded, front, last);
      assert front + [last] == calls;
    }
  }

  lemma PlansGrow(store: Store, after: Store, calls: seq<Call>, c: Call)
    requires AllRegistered(store, calls)
    requires forall key :: key in after.plans ==>
               (key in store.plans && after.plans[key] == store.plans[key]) || RegisteredBy(after.plans[key], key, c)
    ensures AllRegistered(after, calls + [c])
  {
    var longer := calls + [c];
    assert longer[|calls|] == c;
    forall key | key in after.plans
      ensures exists j :: 0 <= j < |longer| && RegisteredBy(after.plans[key], key, longer[j])
    {
      if !RegisteredBy(after.plans[key], key, c) {
        var j :| 0 <= j < |calls| && RegisteredBy(store.plans[key], key, calls[j]);
        assert longer[j] == calls[j];
      }
    }
  }

  lemma PlansAfter(guarded: bool, front: seq<Call>, last: Call)
    requires AllRegistered(RunCalls(guarded, front), front)
    ensures AllRegistered(Next(RunCalls(guarded, front), guarded, last).0, front + [last])
  {
    PlansStep(RunCalls(guarded, front), guarded, last);
    PlansGrow(RunCalls(guarded, front), Next(RunCalls(guarded, front), guarded, last).0, front, last);
  }

  /** Over every run, each plan is the content of one of its registrations. */
  lemma {:induction false} PlansWereRegistered(guarded: bool, calls: seq<Call>)
    ensures AllRegistered(RunCalls(guarded, calls), calls)
  {
    if calls != [] {
      var front, last := calls[..|calls| - 1], calls[|calls| - 1];
      PlansWereRegistered(guarded, front);
      PlansAfter(guarded, front, last);
      RunUnfolds(guarded, front, last);
      assert front + [last] == calls;
    }
  }

  lemma PlansStep(store: Store, guarded: bool, c: Call)
    ensures var after := Next(store, guarded, c).0;
            forall key :: key in after.plans ==>
              (key in store.plans && after.plans[key] == store.plans[key]) || RegisteredBy(after.plans[key], key, c)
  {
    if c.Register? {
      RegisterAnswer(store, guarded, c);
    } else {
      EvaluatePlans(store, guarded, c);
    }
  }

  lemma EvaluatePlans(store: Store, guarded: bool, c: Call)
    requires c.Evaluate?
    ensures Next(store, guarded, c).0.plans == store.plans
  {
    var prior := Prior(store.results, PlanKey(c.spec));
    var m := Materialize(c.spec, c.stage, c.universe, c.outcomes, FrozenRule(LastDevelopment(prior)));
    FinishedPlans(store, guarded, c.spec, c.stage, prior, m, c.dry);
  }

  lemma FinishedPlans(store: Store, guarded: bool, spec: Spec, stage: Stage, prior: seq<ResultRow>, m: Outcome<Record>,
                      dry: bool)
    ensures Finished(store, guarded, spec, stage, prior, m, dry).0.plans == store.plans
  {
    if m.Done? {
      ConcludedAdds(store, guarded, prior, m.value, dry);
    }
  }
}
