/** One stage of a registered study: which events are members and why not, the median
    split, the gates and the decision, all frozen into one canonical record. */
module Cohort {
  import opened Sequences
  import opened Filters

  const COMPLETE := "complete"
  const INSUFFICIENT := "insufficient_data"

  type Key = (string, int)

  /** A stored following-session outcome; the digest tells apart rows of one event. */
  datatype OutcomeRow = OutcomeRow(symbol: string, date: int, status: string, digest: string, close: Option<real>,
                                   flags: seq<string>)

  datatype Stage = Development | OutOfSample

  datatype Expectation = Higher | Lower

  datatype Period = Period(from: int, to: int)

  datatype Spec = Spec(
    key: string, version: int, filter: EventFilter, outcomeVersion: string,
    development: Period, oos: Period, expected: Expectation,
    minimumDevelopment: nat, minimumOos: nat,
    assumptions: seq<string>, limitations: seq<string>, failureModes: seq<string>)

  /** Early means a detection delay of at most the threshold. */
  datatype Rule = Rule(threshold: real)

  datatype Member = Member(
    symbol: string, date: int, included: bool, reasons: seq<string>, versions: Versions, outcomeVersion: string,
    featureEvidence: Option<string>, featureStatus: Option<string>,
    outcomeEvidence: Option<string>, outcomeStatus: Option<string>, flags: seq<string>)

  datatype Decision = Refine | Reject | PaperTradeCandidate

  datatype Rationale = FreezesRule | GateNotMet | DirectionMatched | DirectionNotMatched

  datatype Counts = Counts(universe: nat, included: nat, excluded: nat, completeOutcome: nat, insufficientOutcome: nat)

  datatype Split = Split(earlyMean: Option<real>, lateMean: Option<real>, difference: Option<real>, early: nat,
                         late: nat)

  datatype Record = Record(
    key: string, version: int, stage: Stage, cohort: seq<Member>, counts: Counts, exclusions: multiset<string>,
    split: Split, rule: Rule, assumptions: seq<string>, limitations: seq<string>, failureModes: seq<string>,
    sampleGate: bool, coverageGate: bool, decision: Decision, rationale: Rationale)

  datatype Failure = NothingUsable | RuleRequired

  datatype Outcome<T> = Done(value: T) | Failed(failure: Failure)

  /** What a member is judged against. */
  datatype Context = Context(spec: Spec, selected: EventFilter, chosen: map<Key, OutcomeRow>)

  // ------------------------------------------------------------------ one outcome per event

  function KeyOf(o: OutcomeRow): Key {
    (o.symbol, o.date)
  }

  function EventKey(e: EventRow): Key {
    (e.symbol, e.date)
  }

  predicate Preferred(a: OutcomeRow, b: OutcomeRow) {
    if (a.status == COMPLETE) == (b.status == COMPLETE) then TextLe(a.digest, b.digest) else a.status == COMPLETE
  }

  function ForKey(key: Key): OutcomeRow -> bool {
    (o: OutcomeRow) => KeyOf(o) == key
  }

  function Group(outcomes: seq<OutcomeRow>, key: Key): seq<OutcomeRow> {
    Filter(outcomes, ForKey(key))
  }

  ghost function Keys(outcomes: seq<OutcomeRow>): set<Key> {
    set o | o in outcomes :: KeyOf(o)
  }

  ghost function Chosen(outcomes: seq<OutcomeRow>): map<Key, OutcomeRow> {
    map key | key in Keys(outcomes) && Group(outcomes, key) != [] :: Best(Group(outcomes, key))
  }

  function Best(group: seq<OutcomeRow>): OutcomeRow
    requires group != []
  {
    SortContents(group, Preferred);
    SortBy(group, Preferred)[0]
  }

  method ChooseOutcomes(outcomes: seq<OutcomeRow>) returns (chosen: map<Key, OutcomeRow>)
    ensures chosen == Chosen(outcomes)
  {
    var groups: map<Key, seq<OutcomeRow>> := map[];
    for i := 0 to |outcomes|
      invariant forall key :: key in groups <==> Group(outcomes[..i], key) != []
      invariant forall key :: key in groups ==> groups[key] == Group(outcomes[..i], key)
    {
      var key := KeyOf(outcomes[i]);
      assert outcomes[..i + 1] == outcomes[..i] + [outcomes[i]];
      forall other
        ensures Group(outcomes[..i + 1], other)
                == Group(outcomes[..i], other) + if other == key then [outcomes[i]] else []
      {
        FilterConcat(outcomes[..i], [outcomes[i]], ForKey(other));
      }
      groups := groups[key := (if key in groups then groups[key] else []) + [outcomes[i]]];
    }
    assert outcomes[..|outcomes|] == outcomes;
    GroupKeys(outcomes);
    chosen := map key | key in groups :: Best(groups[key]);
  }

  lemma GroupKeys(outcomes: seq<OutcomeRow>)
    ensures forall key :: key in Keys(outcomes) <==> Group(outcomes, key) != []
  {
    forall key ensures key in Keys(outcomes) <==> Group(outcomes, key) != [] {
      FilterMembers(outcomes, ForKey(key));
      if Group(outcomes, key) != [] {
        assert Group(outcomes, key)[0] in outcomes;
      }
    }
  }

  /** At most one row of an event carries a given digest. */
  ghost predicate DistinctDigests(outcomes: seq<OutcomeRow>) {
    forall a, b :: a in outcomes && b in outcomes && KeyOf(a) == KeyOf(b) && a.digest == b.digest ==> a == b
  }

  lemma PreferenceOrder(group: seq<OutcomeRow>, key: Key)
    requires DistinctDigests(group) && forall o :: o in group ==> KeyOf(o) == key
    ensures TotalPreorder(Preferred) && NoTies(group, Preferred)
  {
    forall x: OutcomeRow, y: OutcomeRow
      ensures && (Preferred(x, y) || Preferred(y, x))
              && (Preferred(x, y) && Preferred(y, x) ==> x.digest == y.digest)
    {
      TextLeTotal(x.digest, y.digest);
    }
    forall x: OutcomeRow, y: OutcomeRow, z: OutcomeRow | Preferred(x, y) && Preferred(y, z) ensures Preferred(x, z) {
      if TextLe(x.digest, y.digest) && TextLe(y.digest, z.digest) {
        TextLeTransitive(x.digest, y.digest, z.digest);
      }
    }
  }

  /** The chosen outcomes do not depend on the order the rows were read in. */
  lemma ChosenPermutation(a: seq<OutcomeRow>, b: seq<OutcomeRow>)
    requires multiset(a) == multiset(b) && DistinctDigests(a)
    ensures Chosen(a) == Chosen(b)
  {
    SameContents(a, b);
    forall key
      ensures Group(a, key) != [] <==> Group(b, key) != []
      ensures Group(a, key) != [] ==> Best(Group(a, key)) == Best(Group(b, key))
    {
      FilterPermutation(a, b, ForKey(key));
      FilterMembers(a, ForKey(key));
      if Group(a, key) != [] {
        PreferenceOrder(Group(a, key), key);
        SortPermutation(Group(a, key), Group(b, key), Preferred);
      }
    }
  }

  /** A complete outcome is chosen whenever the event has one. */
  lemma CompletePreferred(outcomes: seq<OutcomeRow>, o: OutcomeRow)
    requires o in outcomes && o.status == COMPLETE && DistinctDigests(outcomes)
    ensures && KeyOf(o) in Chosen(outcomes)
            && Chosen(outcomes)[KeyOf(o)].status == COMPLETE
  {
    var group := Group(outcomes, KeyOf(o));
    FilterMembers(outcomes, ForKey(KeyOf(o)));
    GroupKeys(outcomes);
    PreferenceOrder(group, KeyOf(o));
    SortContents(group, Preferred);
    SortSorted(group, Preferred);
    var sorted := SortBy(group, Preferred);
    var i :| 0 <= i < |sorted| && sorted[i] == o;
    assert Preferred(sorted[0], sorted[i]);
  }

  // ------------------------------------------------------------------ members

  function CodeText(c: Code): string {
    match c
    case StatusExcluded => "analysis_status_excluded"
    case ClassExcluded => "reaction_class_excluded"
    case DirectionExcluded => "reaction_direction_excluded"
    case ModeExcluded => "postmarket_collection_mode_excluded"
    case MinAbsInitialExcluded => "min_abs_initial_return_excluded"
    case MaxAbsInitialExcluded => "max_abs_initial_return_excluded"
    case MinRetentionExcluded => "min_retention_excluded"
    case MaxRetentionExcluded => "max_retention_excluded"
    case MinDelayExcluded => "min_detection_delay_excluded"
    case MaxDelayExcluded => "max_detection_delay_excluded"
    case MinVolumeExcluded => "min_volume_105m_excluded"
    case MinCoverageExcluded => "min_coverage_ratio_excluded"
    case MinEpsSurpriseExcluded => "min_eps_surprise_pct_excluded"
    case MaxEpsSurpriseExcluded => "max_eps_surprise_pct_excluded"
  }

  predicate FeatureComplete(e: EventRow) {
    e.status == Some(COMPLETE) && e.delay.Some?
  }

  function OutcomeFor(c: Context, e: EventRow): Option<OutcomeRow> {
    if EventKey(e) in c.chosen then Some(c.chosen[EventKey(e)]) else None
  }

  predicate OutcomeComplete(o: OutcomeRow) {
    o.status == COMPLETE && o.close.Some?
  }

  function FeatureReason(e: EventRow): seq<string> {
    if FeatureComplete(e) then [] else ["feature_not_complete"]
  }

  function OutcomeReason(o: Option<OutcomeRow>): seq<string> {
    if o.None? then ["outcome_missing"]
    else if !OutcomeComplete(o.value) then ["outcome_not_complete"]
    else []
  }

  function Reasons(c: Context, e: EventRow): seq<string> {
    Map(ExclusionReasons(e, c.selected), CodeText) + FeatureReason(e) + OutcomeReason(OutcomeFor(c, e))
  }

  function Judged(c: Context, e: EventRow): Member {
    var o := OutcomeFor(c, e);
    Member(e.symbol, e.date, Reasons(c, e) == [], SortedSet(Reasons(c, e)), c.selected.versions, c.spec.outcomeVersion,
           e.evidence, e.status,
           if o.Some? then Some(o.value.digest) else None,
           if o.Some? then Some(o.value.status) else None,
           SortedSet(e.flags + if o.Some? then o.value.flags else []))
  }

  function MemberOf(c: Context): EventRow -> Member {
    (e: EventRow) => Judged(c, e)
  }

  function IsUsable(c: Context): EventRow -> bool {
    (e: EventRow) => Reasons(c, e) == []
  }

  predicate Includes(c: Context, e: EventRow) {
    && ExclusionReasons(e, c.selected) == [] && FeatureComplete(e)
    && OutcomeFor(c, e).Some? && OutcomeComplete(OutcomeFor(c, e).value)
  }

  lemma UsableMeaning(c: Context, e: EventRow)
    ensures IsUsable(c)(e) <==> Includes(c, e)
  {
  }

  /** Included exactly when no reason is recorded, which is what the members table demands. */
  lemma MemberCheck(c: Context, e: EventRow)
    ensures Judged(c, e).included <==> Judged(c, e).reasons == []
    ensures Judged(c, e).included <==> Includes(c, e)
  {
    SortedSetContents(Reasons(c, e));
    if Reasons(c, e) != [] {
      assert Reasons(c, e)[0] in SortedSet(Reasons(c, e));
    }
  }

  predicate MemberLe(a: Member, b: Member) {
    if a.date == b.date then TextLe(a.symbol, b.symbol) else a.date < b.date
  }

  // ------------------------------------------------------------------ median split

  predicate IntLe(a: int, b: int) {
    a <= b
  }

  function Middle(sorted: seq<int>): real
    requires sorted != []
  {
    var n := |sorted|;
    if n % 2 == 1 then sorted[n / 2] as real else (sorted[n / 2 - 1] + sorted[n / 2]) as real / 2.0
  }

  function Median(delays: seq<int>): real
    requires delays != []
  {
    SortContents(delays, IntLe);
    Middle(SortBy(delays, IntLe))
  }

  function DelayOf(e: EventRow): int {
    if e.delay.Some? then e.delay.value else 0
  }

  function ReturnOf(c: Context): EventRow -> real {
    (e: EventRow) =>
      if OutcomeFor(c, e).Some? && OutcomeFor(c, e).value.close.Some? then OutcomeFor(c, e).value.close.value else 0.0
  }

  function IsEarly(threshold: real): EventRow -> bool {
    (e: EventRow) => DelayOf(e) as real <= threshold
  }

  function IsLate(threshold: real): EventRow -> bool {
    (e: EventRow) => DelayOf(e) as real > threshold
  }

  function Mean(values: seq<real>): Option<real> {
    if values == [] then None else Some(Sum(values) / |values| as real)
  }

  function Difference(early: Option<real>, late: Option<real>): Option<real> {
    if early.Some? && late.Some? then Some(early.value - late.value) else None
  }

  function SplitOf(early: seq<real>, late: seq<real>): Split {
    Split(Mean(early), Mean(late), Difference(Mean(early), Mean(late)), |early|, |late|)
  }

  function SplitAt(c: Context, usable: seq<EventRow>, threshold: real): Split {
    SplitOf(Map(Filter(usable, IsEarly(threshold)), ReturnOf(c)), Map(Filter(usable, IsLate(threshold)), ReturnOf(c)))
  }

  // ------------------------------------------------------------------ gates and decision

  function IsEligible(f: EventFilter): EventRow -> bool {
    (e: EventRow) => ExclusionReasons(e, f) == [] && e.status == Some(COMPLETE)
  }

  function Tally(members: seq<Member>): multiset<string> {
    if members == [] then multiset{} else Tally(members[..|members| - 1]) + multiset(members[|members| - 1].reasons)
  }

  function HasOutcomeStatus(status: string): Member -> bool {
    (m: Member) => m.outcomeStatus == Some(status)
  }

  predicate DirectionMatches(expected: Expectation, difference: Option<real>) {
    difference.Some? && if expected.Higher? then difference.value > 0.0 else difference.value < 0.0
  }

  function Decide(stage: Stage, sample: bool, coverage: bool, matches: bool): (Decision, Rationale) {
    if stage.Development? then (Refine, FreezesRule)
    else if !sample || !coverage then (Reject, GateNotMet)
    else if matches then (PaperTradeCandidate, DirectionMatched)
    else (Reject, DirectionNotMatched)
  }

  function Minimum(spec: Spec, stage: Stage): nat {
    if stage.Development? then spec.minimumDevelopment else spec.minimumOos
  }

  function Assemble(spec: Spec, stage: Stage, members: seq<Member>, included: nat, eligible: nat, split: Split,
                    rule: Rule): Record
    requires included <= |members|
  {
    var sample := included >= Minimum(spec, stage) && split.early > 0 && split.late > 0;
    var coverage := eligible == included;
    var (decision, rationale) := Decide(stage, sample, coverage, DirectionMatches(spec.expected, split.difference));
    Record(spec.key, spec.version, stage, SortBy(members, MemberLe),
           Counts(|members|, included, |members| - included,
                  |Filter(members, HasOutcomeStatus(COMPLETE))|, |Filter(members, HasOutcomeStatus(INSUFFICIENT))|),
           Tally(members), split, rule, spec.assumptions, spec.limitations, spec.failureModes,
           sample, coverage, decision, rationale)
  }

  function Usable(c: Context, universe: seq<EventRow>): seq<EventRow> {
    Filter(universe, IsUsable(c))
  }

  function RuleFor(stage: Stage, usable: seq<EventRow>, frozen: Option<Rule>): Option<Rule> {
    if stage.Development? && usable != [] then Some(Rule(Median(Map(usable, DelayOf)))) else frozen
  }

  function StageResult(c: Context, stage: Stage, universe: seq<EventRow>, usable: seq<EventRow>,
                       frozen: Option<Rule>): Outcome<Record>
    requires |usable| <= |universe|
  {
    if usable == [] then Failed(NothingUsable)
    else if RuleFor(stage, usable, frozen).None? then Failed(RuleRequired)
    else
      var rule := RuleFor(stage, usable, frozen).value;
      Done(Assemble(c.spec, stage, Map(universe, MemberOf(c)), |usable|, |Filter(universe, IsEligible(c.selected))|,
                    SplitAt(c, usable, rule.threshold), rule))
  }

  function PeriodOf(spec: Spec, stage: Stage): Period {
    if stage.Development? then spec.development else spec.oos
  }

  ghost function ContextOf(spec: Spec, stage: Stage, outcomes: seq<OutcomeRow>): Context {
    var period := PeriodOf(spec, stage);
    Context(spec, SelectedFilter(spec.filter, period.from, period.to), Chosen(outcomes))
  }

  /** The study result a stage would store, from the fetched universe and outcomes. */
  ghost function Materialize(spec: Spec, stage: Stage, universe: seq<EventRow>, outcomes: seq<OutcomeRow>,
                             frozen: Option<Rule>): Outcome<Record> {
    var c := ContextOf(spec, stage, outcomes);
    FilterMembers(universe, IsUsable(c));
    StageResult(c, stage, universe, Usable(c, universe), frozen)
  }

  // ------------------------------------------------------------------ the stage, step by step

  method JudgeEvent(c: Context, e: EventRow) returns (m: Member, reasons: seq<string>)
    ensures reasons == Reasons(c, e) && m == Judged(c, e)
  {
    var codes := RefinementExclusionReasons(e, c.selected);
    reasons := Map(codes, CodeText);
    if e.status != Some(COMPLETE) || e.delay.None? {
      reasons := reasons + ["feature_not_complete"];
    }
    var outcome := if EventKey(e) in c.chosen then Some(c.chosen[EventKey(e)]) else None;
    if outcome.None? {
      reasons := reasons + ["outcome_missing"];
    } else if outcome.value.status != COMPLETE || outcome.value.close.None? {
      reasons := reasons + ["outcome_not_complete"];
    }
    m := Member(e.symbol, e.date, reasons == [], SortedSet(reasons), c.selected.versions, c.spec.outcomeVersion,
                e.evidence, e.status,
                if outcome.Some? then Some(outcome.value.digest) else None,
                if outcome.Some? then Some(outcome.value.status) else None,
                SortedSet(e.flags + if outcome.Some? then outcome.value.flags else []));
  }

  lemma NextEvent(c: Context, universe: seq<EventRow>, i: nat)
    requires i < |universe|
    ensures Map(universe[..i + 1], MemberOf(c)) == Map(universe[..i], MemberOf(c)) + [Judged(c, universe[i])]
    ensures Usable(c, universe[..i + 1])
            == Usable(c, universe[..i]) + if Reasons(c, universe[i]) == [] then [universe[i]] else []
  {
    MapNext(universe, MemberOf(c), i);
    FilterNext(universe, IsUsable(c), i);
  }

  method JudgeUniverse(c: Context, universe: seq<EventRow>) returns (members: seq<Member>, usable: seq<EventRow>)
    ensures members == Map(universe, MemberOf(c))
    ensures usable == Usable(c, universe)
  {
    members, usable := [], [];
    for i := 0 to |universe|
      invariant members == Map(universe[..i], MemberOf(c))
      invariant usable == Usable(c, universe[..i])
    {
      var m, reasons := JudgeEvent(c, universe[i]);
      NextEvent(c, universe, i);
      members := members + [m];
      if reasons == [] {
        usable := usable + [universe[i]];
      }
    }
    assert universe[..|universe|] == universe;
  }

  method CountEligible(universe: seq<EventRow>, f: EventFilter) returns (eligible: nat)
    ensures eligible == |Filter(universe, IsEligible(f))|
  {
    eligible := 0;
    for i := 0 to |universe|
      invariant eligible == |Filter(universe[..i], IsEligible(f))|
    {
      var codes := RefinementExclusionReasons(universe[i], f);
      FilterNext(universe, IsEligible(f), i);
      if codes == [] && universe[i].status == Some(COMPLETE) {
        eligible := eligible + 1;
      }
    }
    assert universe[..|universe|] == universe;
  }

  method MaterializeStage(spec: Spec, stage: Stage, universe: seq<EventRow>, outcomes: seq<OutcomeRow>,
                          frozen: Option<Rule>)
    returns (result: Outcome<Record>)
    ensures result == Materialize(spec, stage, universe, outcomes, frozen)
  {
    var period := PeriodOf(spec, stage);
    var chosen := ChooseOutcomes(outcomes);
    var c := Context(spec, SelectedFilter(spec.filter, period.from, period.to), chosen);
    var members, usable := JudgeUniverse(c, universe);
    FilterMembers(universe, IsUsable(c));
    if usable == [] {
      return Failed(NothingUsable);
    }
    var rule := frozen;
    if stage.Development? {
      rule := Some(Rule(Median(Map(usable, DelayOf))));
    }
    if rule.None? {
      return Failed(RuleRequired);
    }
    var split := SplitAt(c, usable, rule.value.threshold);
    var eligible := CountEligible(universe, c.selected);
    result := Done(Assemble(spec, stage, members, |usable|, eligible, split, rule.value));
  }
}
