/** A study result told by counting: the frozen threshold as a median, the two groups and
    their means, the gates and the decision, over the events the stage includes. */
module CohortAnswers {
  import opened Sequences
  import opened Filters
  import opened FilterConditions
  import opened Cohort
  import CohortLaws

  // ------------------------------------------------------------------ the median, by counting

  function Below(x: real): int -> bool {
    (d: int) => d as real < x
  }

  function UpToValue(x: real): int -> bool {
    (d: int) => d as real <= x
  }

  function FromValue(x: real): int -> bool {
    (d: int) => d as real >= x
  }

  function Count(values: seq<int>, p: int -> bool): nat {
    |Filter(values, p)|
  }

  /** `x` is the k-th smallest of the values: fewer than k lie below it, at least k up to it. */
  ghost predicate KthSmallest(values: seq<int>, k: int, x: int) {
    x in values && Count(values, Below(x as real)) < k <= Count(values, UpToValue(x as real))
  }

  /** The middle value of an odd number of values, the midpoint of the two middle ones otherwise. */
  ghost predicate IsMedian(values: seq<int>, m: real) {
    var n := |values|;
    if n % 2 == 1 then exists x :: MiddleIs(values, m, x) else exists a, b :: MidpointIs(values, m, a, b)
  }

  ghost predicate MiddleIs(values: seq<int>, m: real, x: int) {
    KthSmallest(values, (|values| + 1) / 2, x) && m == x as real
  }

  ghost predicate MidpointIs(values: seq<int>, m: real, a: int, b: int) {
    KthSmallest(values, |values| / 2, a) && KthSmallest(values, |values| / 2 + 1, b) && 2.0 * m == (a + b) as real
  }

  /** At least half of the values on either side. */
  ghost predicate Halves(values: seq<int>, m: real) {
    2 * Count(values, UpToValue(m)) >= |values| && 2 * Count(values, FromValue(m)) >= |values|
  }

  lemma {:induction false} CountBounds(values: seq<int>, p: int -> bool, k: nat)
    requires k <= |values| && forall i :: k <= i < |values| ==> !p(values[i])
    ensures Count(values, p) <= k
  {
    FilterNothing(values[k..], p);
    FilterConcat(values[..k], values[k..], p);
    FilterMembers(values[..k], p);
    assert values == values[..k] + values[k..];
  }

  lemma PlaceInOrder(values: seq<int>, i: nat)
    requires i < |values|
    ensures |SortBy(values, IntLe)| == |values| && KthSmallest(values, i + 1, SortBy(values, IntLe)[i])
  {
    var sorted := SortBy(values, IntLe);
    SortContents(values, IntLe);
    assert TotalPreorder(IntLe);
    SortSorted(values, IntLe);
    var x := sorted[i];
    forall j | i <= j < |sorted| ensures !Below(x as real)(sorted[j]) {
      assert j == i || IntLe(sorted[i], sorted[j]);
    }
    CountBounds(sorted, Below(x as real), i);
    forall j | 0 <= j < i + 1 ensures UpToValue(x as real)(sorted[j]) {
      assert j == i || IntLe(sorted[j], sorted[i]);
    }
    CohortLaws.CountAtLeast(sorted, UpToValue(x as real), i + 1);
    FilterPermutation(sorted, values, Below(x as real));
    FilterPermutation(sorted, values, UpToValue(x as real));
  }

  lemma MedianCounted(values: seq<int>)
    requires values != []
    ensures IsMedian(values, Median(values))
  {
    var n := |values|;
    var sorted := SortBy(values, IntLe);
    SortContents(values, IntLe);
    PlaceInOrder(values, n / 2);
    if n % 2 == 0 {
      PlaceInOrder(values, n / 2 - 1);
      assert MidpointIs(values, Median(values), sorted[n / 2 - 1], sorted[n / 2]);
    } else {
      assert MiddleIs(values, Median(values), sorted[n / 2]);
    }
  }

  lemma {:induction false} Complement(values: seq<int>, x: real)
    ensures Count(values, Below(x)) + Count(values, FromValue(x)) == |values|
  {
    if values != [] {
      Complement(values[1..], x);
    }
  }

  lemma {:induction false} CountGrows(values: seq<int>, p: int -> bool, q: int -> bool)
    requires forall d :: p(d) ==> q(d)
    ensures Count(values, p) <= Count(values, q)
  {
    if values != [] {
      CountGrows(values[1..], p, q);
    }
  }

  /** The middle of two neighbours in order lies between them. */
  lemma MedianHalves(values: seq<int>, m: real)
    requires values != [] && IsMedian(values, m)
    ensures Halves(values, m)
  {
    var n := |values|;
    if n % 2 == 1 {
      var x :| MiddleIs(values, m, x);
      Complement(values, m);
    } else {
      var a, b :| MidpointIs(values, m, a, b);
      if b < a {
        CountGrows(values, UpToValue(b as real), Below(a as real));
      } else {
        CountGrows(values, UpToValue(a as real), UpToValue(m));
        CountGrows(values, FromValue(b as real), FromValue(m));
        Complement(values, b as real);
      }
    }
  }

  // ------------------------------------------------------------------ what a stage is judged against

  /** The stage's own dates on the study's filter, and one outcome for each event that has any:
      a complete one if there is one, and the least digest among equals. */
  ghost predicate IsContext(c: Context, spec: Spec, stage: Stage, outcomes: seq<OutcomeRow>) {
    var period := if stage.Development? then spec.development else spec.oos;
    && c.spec == spec
    && c.selected == spec.filter.(dateFrom := Some(period.from), dateTo := Some(period.to),
                                  orderBy := "earnings_date_asc", limit := None, offset := 0)
    && (forall o :: o in outcomes ==> (o.symbol, o.date) in c.chosen)
    && (forall key :: key in c.chosen ==> IsChosen(c.chosen[key], key, outcomes))
  }

  ghost predicate IsChosen(x: OutcomeRow, key: Key, outcomes: seq<OutcomeRow>) {
    && x in outcomes && (x.symbol, x.date) == key
    && forall o :: o in outcomes && (o.symbol, o.date) == key ==>
         && (o.status == "complete" ==> x.status == "complete")
         && ((o.status == "complete") == (x.status == "complete") ==> TextLe(x.digest, o.digest))
  }

  lemma ChosenMeaning(outcomes: seq<OutcomeRow>, key: Key)
    requires DistinctDigests(outcomes) && key in Chosen(outcomes)
    ensures IsChosen(Chosen(outcomes)[key], key, outcomes)
  {
    var group := Group(outcomes, key);
    FilterMembers(outcomes, ForKey(key));
    GroupKeys(outcomes);
    PreferenceOrder(group, key);
    SortContents(group, Preferred);
    SortSorted(group, Preferred);
    var sorted := SortBy(group, Preferred);
    assert sorted[0] in sorted;
    forall o | o in outcomes && (o.symbol, o.date) == key ensures Preferred(sorted[0], o) {
      assert ForKey(key)(o) && o in sorted;
      var i :| 0 <= i < |sorted| && sorted[i] == o;
      TextLeTotal(o.digest, o.digest);
      assert i == 0 || Preferred(sorted[0], sorted[i]);
    }
  }

  lemma ContextMeaning(spec: Spec, stage: Stage, outcomes: seq<OutcomeRow>)
    requires DistinctDigests(outcomes)
    ensures IsContext(ContextOf(spec, stage, outcomes), spec, stage, outcomes)
  {
    GroupKeys(outcomes);
    forall key | key in Chosen(outcomes) ensures IsChosen(Chosen(outcomes)[key], key, outcomes) {
      ChosenMeaning(outcomes, key);
    }
    forall o | o in outcomes ensures (o.symbol, o.date) in Chosen(outcomes) {
      assert KeyOf(o) in Keys(outcomes);
    }
  }

  // ------------------------------------------------------------------ the two groups

  /** The outcome of an event, and whether it counts as a member. */
  function Included(c: Context): EventRow -> bool {
    (e: EventRow) => Includes(c, e)
  }

  function CloseOf(c: Context, e: EventRow): real
    requires Includes(c, e)
  {
    c.chosen[(e.symbol, e.date)].close.value
  }

  /** The delays of events that were all analysed. */
  ghost predicate DelaysOf(events: seq<EventRow>, delays: seq<int>) {
    |delays| == |events| && forall i :: 0 <= i < |events| ==> events[i].delay == Some(delays[i])
  }

  /** The closing returns of the events on one side of the threshold, added up. */
  function CloseTotal(c: Context, events: seq<EventRow>, threshold: real, early: bool): real
    requires forall e :: e in events ==> Includes(c, e)
  {
    if events == [] then 0.0
    else
      assert events[0] in events && Includes(c, events[0]) && FeatureComplete(events[0]);
      (if (events[0].delay.value as real <= threshold) == early then CloseOf(c, events[0]) else 0.0)
      + CloseTotal(c, events[1..], threshold, early)
  }

  ghost predicate IsMean(mean: Option<real>, count: nat, total: real) {
    if count == 0 then mean.None? else mean.Some? && mean.value * (count as real) == total
  }

  ghost predicate SplitCounted(split: Split, c: Context, events: seq<EventRow>, delays: seq<int>, threshold: real)
    requires forall e :: e in events ==> Includes(c, e)
  {
    && split.early == Count(delays, UpToValue(threshold))
    && split.early + split.late == |delays|
    && IsMean(split.earlyMean, split.early, CloseTotal(c, events, threshold, true))
    && IsMean(split.lateMean, split.late, CloseTotal(c, events, threshold, false))
    && (split.difference.Some? <==> split.earlyMean.Some? && split.lateMean.Some?)
    && (split.difference.Some? ==> split.difference.value == split.earlyMean.value - split.lateMean.value)
  }

  lemma MeanCounted(values: seq<real>)
    ensures IsMean(Mean(values), |values|, Sum(values))
  {
    if values != [] {
      var n := |values| as real;
      assert Sum(values) / n * n == Sum(values);
    }
  }

  lemma {:induction false} SideTotals(c: Context, events: seq<EventRow>, threshold: real)
    requires forall e :: e in events ==> Includes(c, e)
    ensures Sum(Map(Filter(events, IsEarly(threshold)), ReturnOf(c))) == CloseTotal(c, events, threshold, true)
    ensures Sum(Map(Filter(events, IsLate(threshold)), ReturnOf(c))) == CloseTotal(c, events, threshold, false)
  {
    if events != [] {
      assert events[0] in events && Includes(c, events[0]);
      SideTotals(c, events[1..], threshold);
      MemberClose(c, events[0]);
      SideGrows(ReturnOf(c), events, IsEarly(threshold));
      SideGrows(ReturnOf(c), events, IsLate(threshold));
    }
  }

  lemma MemberClose(c: Context, e: EventRow)
    requires Includes(c, e)
    ensures ReturnOf(c)(e) == CloseOf(c, e) && e.delay.Some? && DelayOf(e) == e.delay.value
  {
  }

  lemma SideGrows(value: EventRow -> real, events: seq<EventRow>, side: EventRow -> bool)
    requires events != []
    ensures Sum(Map(Filter(events, side), value))
            == (if side(events[0]) then value(events[0]) else 0.0) + Sum(Map(Filter(events[1..], side), value))
  {
    var rest := Filter(events[1..], side);
    if side(events[0]) {
      assert ([events[0]] + rest)[1..] == rest;
      SumFirst(value(events[0]), Map(rest, value));
    }
  }

  lemma SumFirst(x: real, values: seq<real>)
    ensures Sum([x] + values) == x + Sum(values)
  {
    assert ([x] + values)[1..] == values;
  }

  lemma {:induction false} SideCounts(events: seq<EventRow>, delays: seq<int>, threshold: real)
    requires DelaysOf(events, delays)
    ensures |Filter(events, IsEarly(threshold))| == Count(delays, UpToValue(threshold))
    ensures |Filter(events, IsEarly(threshold))| + |Filter(events, IsLate(threshold))| == |delays|
  {
    if events != [] {
      SideCounts(events[1..], delays[1..], threshold);
      assert DelayOf(events[0]) == delays[0];
    }
  }

  lemma SplitMeaning(c: Context, events: seq<EventRow>, delays: seq<int>, threshold: real, split: Split)
    requires (forall e :: e in events ==> Includes(c, e)) && DelaysOf(events, delays)
    requires split == SplitAt(c, events, threshold)
    ensures SplitCounted(split, c, events, delays, threshold)
  {
    var early := Map(Filter(events, IsEarly(threshold)), ReturnOf(c));
    var late := Map(Filter(events, IsLate(threshold)), ReturnOf(c));
    SideCounts(events, delays, threshold);
    SideTotals(c, events, threshold);
    MeanCounted(early);
    MeanCounted(late);
  }

  // ------------------------------------------------------------------ the record

  function OutcomeIs(c: Context, status: string): EventRow -> bool {
    (e: EventRow) => (e.symbol, e.date) in c.chosen && c.chosen[(e.symbol, e.date)].status == status
  }

  /** The counts of a record, over the fetched events. */
  ghost predicate CountsCounted(counts: Counts, c: Context, universe: seq<EventRow>, events: seq<EventRow>) {
    && counts.universe == |universe| && counts.included == |events| && counts.excluded == |universe| - |events|
    && counts.completeOutcome == |Filter(universe, OutcomeIs(c, "complete"))|
    && counts.insufficientOutcome == |Filter(universe, OutcomeIs(c, "insufficient_data"))|
  }

  /** Every event that the refinement accepts and the engine analysed is a member. */
  ghost predicate AllAnalysedIncluded(c: Context, universe: seq<EventRow>) {
    forall e :: e in universe && ExclusionReasons(e, c.selected) == [] && e.status == Some("complete") ==>
                  Includes(c, e)
  }

  /** The gates and the decision of a record. */
  ghost predicate Decided(r: Record, c: Context, universe: seq<EventRow>) {
    var minimum := if r.stage.Development? then c.spec.minimumDevelopment else c.spec.minimumOos;
    && (r.sampleGate <==> r.counts.included >= minimum && r.split.early > 0 && r.split.late > 0)
    && (r.coverageGate <==> AllAnalysedIncluded(c, universe))
    && var promoted := r.split.difference.Some?
         && if c.spec.expected.Higher? then r.split.difference.value > 0.0 else r.split.difference.value < 0.0;
       if r.stage.Development? then r.decision == Refine && r.rationale == FreezesRule
       else if !(r.sampleGate && r.coverageGate) then r.decision == Reject && r.rationale == GateNotMet
       else if promoted then r.decision == PaperTradeCandidate && r.rationale == DirectionMatched
       else r.decision == Reject && r.rationale == DirectionNotMatched
  }

  lemma {:induction false} StatusCounted(c: Context, universe: seq<EventRow>, status: string)
    ensures |Filter(Map(universe, MemberOf(c)), HasOutcomeStatus(status))| == |Filter(universe, OutcomeIs(c, status))|
  {
    if universe != [] {
      StatusCounted(c, universe[1..], status);
      var m := Judged(c, universe[0]);
      assert Map(universe, MemberOf(c))[1..] == Map(universe[1..], MemberOf(c));
      assert HasOutcomeStatus(status)(m) == OutcomeIs(c, status)(universe[0]);
    }
  }

  lemma UsableIncluded(c: Context, universe: seq<EventRow>) returns (delays: seq<int>)
    ensures Usable(c, universe) == Filter(universe, Included(c))
    ensures forall e :: e in Usable(c, universe) ==> Includes(c, e)
    ensures delays == Map(Usable(c, universe), DelayOf) && DelaysOf(Usable(c, universe), delays)
  {
    var events := Usable(c, universe);
    forall i | 0 <= i < |universe| ensures IsUsable(c)(universe[i]) == Included(c)(universe[i]) {
      UsableMeaning(c, universe[i]);
    }
    FilterSame(universe, IsUsable(c), Included(c));
    FilterMembers(universe, Included(c));
    delays := Map(events, DelayOf);
    MapAt(events, DelayOf);
    forall i | 0 <= i < |events| ensures events[i].delay == Some(delays[i]) {
      assert events[i] in events;
      assert Includes(c, events[i]);
    }
  }

  lemma AssembledGates(spec: Spec, stage: Stage, members: seq<Member>, included: nat, eligible: nat, split: Split,
                       rule: Rule) returns (r: Record)
    requires included <= |members|
    ensures r == Assemble(spec, stage, members, included, eligible, split, rule)
    ensures r.stage == stage && r.rule == rule && r.split == split
    ensures r.counts.universe == |members| && r.counts.included == included && r.counts.excluded == |members| - included
    ensures r.counts.completeOutcome == |Filter(members, HasOutcomeStatus("complete"))|
    ensures r.counts.insufficientOutcome == |Filter(members, HasOutcomeStatus("insufficient_data"))|
    ensures r.sampleGate <==> included >= Minimum(spec, stage) && split.early > 0 && split.late > 0
    ensures r.coverageGate <==> eligible == included
    ensures (r.decision, r.rationale)
            == Decide(stage, r.sampleGate, r.coverageGate, DirectionMatches(spec.expected, split.difference))
  {
    r := Assemble(spec, stage, members, included, eligible, split, rule);
  }

  lemma StageAssembled(c: Context, stage: Stage, universe: seq<EventRow>, usable: seq<EventRow>, frozen: Option<Rule>)
    returns (r: Record, eligible: nat)
    requires usable == Usable(c, universe) && |usable| <= |universe|
    requires StageResult(c, stage, universe, usable, frozen).Done?
    ensures r == StageResult(c, stage, universe, usable, frozen).value
    ensures eligible == |Filter(universe, IsEligible(c.selected))|
    ensures RuleFor(stage, usable, frozen) == Some(r.rule)
    ensures |Map(universe, MemberOf(c))| == |universe|
    ensures r == Assemble(c.spec, stage, Map(universe, MemberOf(c)), |usable|, eligible,
                          SplitAt(c, usable, r.rule.threshold), r.rule)
  {
    r := StageResult(c, stage, universe, usable, frozen).value;
    eligible := |Filter(universe, IsEligible(c.selected))|;
  }

  lemma GatesCounted(c: Context, stage: Stage, universe: seq<EventRow>, usable: seq<EventRow>, frozen: Option<Rule>,
                     r: Record)
    requires usable == Usable(c, universe) && |usable| <= |universe|
    requires StageResult(c, stage, universe, usable, frozen) == Done(r)
    ensures r.stage == stage && RuleFor(stage, usable, frozen) == Some(r.rule)
    ensures r.split == SplitAt(c, usable, r.rule.threshold)
    ensures CountsCounted(r.counts, c, universe, usable) && Decided(r, c, universe)
  {
    var stored, eligible := StageAssembled(c, stage, universe, usable, frozen);
    var same := AssembledGates(c.spec, stage, Map(universe, MemberOf(c)), |usable|, eligible,
                               SplitAt(c, usable, r.rule.threshold), r.rule);
    CoverageCounted(c, universe, usable, eligible);
    StatusCounted(c, universe, "complete");
    StatusCounted(c, universe, "insufficient_data");
  }

  lemma CoverageCounted(c: Context, universe: seq<EventRow>, usable: seq<EventRow>, eligible: nat)
    requires usable == Usable(c, universe) && eligible == |Filter(universe, IsEligible(c.selected))|
    ensures eligible == |usable| <==> AllAnalysedIncluded(c, universe)
  {
    CohortLaws.CoverageLifts(c, universe);
    forall e
      ensures IsEligible(c.selected)(e) <==> ExclusionReasons(e, c.selected) == [] && e.status == Some("complete")
    {
    }
  }

  lemma RecordCounted(c: Context, stage: Stage, universe: seq<EventRow>, usable: seq<EventRow>, frozen: Option<Rule>,
                      r: Record, delays: seq<int>)
    requires usable == Usable(c, universe) && |usable| <= |universe|
    requires StageResult(c, stage, universe, usable, frozen) == Done(r)
    requires (forall e :: e in usable ==> Includes(c, e)) && DelaysOf(usable, delays)
    requires delays == Map(usable, DelayOf)
    ensures delays != [] && SplitCounted(r.split, c, usable, delays, r.rule.threshold)
    ensures stage.Development? ==> IsMedian(delays, r.rule.threshold) && Halves(delays, r.rule.threshold)
    ensures stage.OutOfSample? ==> frozen == Some(r.rule)
  {
    GatesCounted(c, stage, universe, usable, frozen, r);
    SplitMeaning(c, usable, delays, r.rule.threshold, r.split);
    if stage.Development? {
      MedianCounted(delays);
      MedianHalves(delays, r.rule.threshold);
    }
  }

  /** The record of a stage, by counting: `events` are the fetched events it includes and
      `delays` their delays. A development stage freezes their median; an out-of-sample
      stage keeps the rule it is given. */
  lemma StageCounted(spec: Spec, stage: Stage, universe: seq<EventRow>, outcomes: seq<OutcomeRow>, frozen: Option<Rule>)
    returns (r: Record, c: Context, events: seq<EventRow>, delays: seq<int>)
    requires DistinctDigests(outcomes) && Materialize(spec, stage, universe, outcomes, frozen).Done?
    ensures r == Materialize(spec, stage, universe, outcomes, frozen).value
    ensures IsContext(c, spec, stage, outcomes)
    ensures events == Filter(universe, Included(c)) && (forall e :: e in events ==> Includes(c, e))
    ensures DelaysOf(events, delays) && delays != []
    ensures r.stage == stage && CountsCounted(r.counts, c, universe, events) && Decided(r, c, universe)
    ensures SplitCounted(r.split, c, events, delays, r.rule.threshold)
    ensures stage.Development? ==> IsMedian(delays, r.rule.threshold) && Halves(delays, r.rule.threshold)
    ensures stage.OutOfSample? ==> frozen == Some(r.rule)
  {
    c, r, events := StageParts(spec, stage, universe, outcomes, frozen);
    ContextMeaning(spec, stage, outcomes);
    delays := UsableIncluded(c, universe);
    GatesCounted(c, stage, universe, events, frozen, r);
    RecordCounted(c, stage, universe, events, frozen, r, delays);
  }

  lemma StageParts(spec: Spec, stage: Stage, universe: seq<EventRow>, outcomes: seq<OutcomeRow>, frozen: Option<Rule>)
    returns (c: Context, r: Record, usable: seq<EventRow>)
    requires Materialize(spec, stage, universe, outcomes, frozen).Done?
    ensures r == Materialize(spec, stage, universe, outcomes, frozen).value
    ensures c == ContextOf(spec, stage, outcomes) && usable == Usable(c, universe) && |usable| <= |universe|
    ensures StageResult(c, stage, universe, usable, frozen) == Done(r)
  {
    c := ContextOf(spec, stage, outcomes);
    FilterMembers(universe, IsUsable(c));
    usable := Usable(c, universe);
    r := Materialize(spec, stage, universe, outcomes, frozen).value;
  }

  // ------------------------------------------------------------------ members

  predicate Analysed(e: EventRow) {
    e.status == Some("complete") && e.delay.Some?
  }

  predicate HasOutcome(c: Context, e: EventRow) {
    (e.symbol, e.date) in c.chosen
  }

  predicate OutcomeDone(o: OutcomeRow) {
    o.status == "complete" && o.close.Some?
  }

  /** An event is a member exactly when no bound excludes it, the engine completed it, and its
      outcome is complete. */
  lemma IncludedExactly(c: Context, e: EventRow)
    ensures Includes(c, e) <==>
            && (forall code :: !Excludes(e, c.selected, code)) && Analysed(e)
            && HasOutcome(c, e) && OutcomeDone(c.chosen[(e.symbol, e.date)])
  {
    RefinementMeaning(e, c.selected);
  }

  /** What a recorded reason says. */
  ghost predicate ReasonHolds(c: Context, e: EventRow, reason: string) {
    || (exists code :: Excludes(e, c.selected, code) && CodeText(code) == reason)
    || (reason == "feature_not_complete" && !Analysed(e))
    || (reason == "outcome_missing" && !HasOutcome(c, e))
    || (reason == "outcome_not_complete" && HasOutcome(c, e) && !OutcomeDone(c.chosen[(e.symbol, e.date)]))
  }

  lemma CodesRecorded(c: Context, e: EventRow, reason: string)
    ensures reason in Map(ExclusionReasons(e, c.selected), CodeText)
            <==> exists code :: Excludes(e, c.selected, code) && CodeText(code) == reason
  {
    var codes := ExclusionReasons(e, c.selected);
    MapAt(codes, CodeText);
    if reason in Map(codes, CodeText) {
      var i :| 0 <= i < |codes| && Map(codes, CodeText)[i] == reason;
      ReasonMeaning(e, c.selected, codes[i]);
    }
    if code :| Excludes(e, c.selected, code) && CodeText(code) == reason {
      ReasonMeaning(e, c.selected, code);
      var i :| 0 <= i < |codes| && codes[i] == code;
      assert Map(codes, CodeText)[i] == reason;
    }
  }

  lemma ReasonsRecorded(c: Context, e: EventRow, reason: string)
    ensures reason in Reasons(c, e) <==> ReasonHolds(c, e, reason)
  {
    CodesRecorded(c, e, reason);
  }

  /** A member's row: identity, versions and evidence of the event and of its outcome, and every
      reason that holds of it, once. */
  lemma MemberRecorded(c: Context, e: EventRow) returns (m: Member)
    ensures m == Judged(c, e) && (m.symbol, m.date) == (e.symbol, e.date)
    ensures m.included <==> forall reason :: !ReasonHolds(c, e, reason)
    ensures forall reason :: reason in m.reasons <==> ReasonHolds(c, e, reason)
    ensures m.versions == c.selected.versions && m.outcomeVersion == c.spec.outcomeVersion
    ensures (m.featureEvidence, m.featureStatus) == (e.evidence, e.status)
    ensures m.outcomeEvidence == if HasOutcome(c, e) then Some(c.chosen[(e.symbol, e.date)].digest) else None
    ensures m.outcomeStatus == if HasOutcome(c, e) then Some(c.chosen[(e.symbol, e.date)].status) else None
    ensures forall flag :: flag in m.flags <==>
              flag in e.flags || (HasOutcome(c, e) && flag in c.chosen[(e.symbol, e.date)].flags)
  {
    m := Judged(c, e);
    var reasons := Reasons(c, e);
    SortedSetContents(reasons);
    SortedSetContents(e.flags + if HasOutcome(c, e) then c.chosen[(e.symbol, e.date)].flags else []);
    forall reason ensures reason in reasons <==> ReasonHolds(c, e, reason) {
      ReasonsRecorded(c, e, reason);
    }
    if reasons != [] {
      assert ReasonHolds(c, e, reasons[0]);
    }
  }
}
