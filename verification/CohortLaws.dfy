/** What a stored study result means: its split is a median split, its gates lift to
    statements about events, and a promotion to paper trading says exactly what was
    preregistered. */
module CohortLaws {
  import opened Sequences
  import opened Filters
  import opened FilterLaws
  import opened Cohort

  // ------------------------------------------------------------------ the median split

  function AtMost(threshold: real): int -> bool {
    (d: int) => d as real <= threshold
  }

  lemma {:induction false} CountAtLeast(s: seq<int>, p: int -> bool, k: nat)
    requires k <= |s| && forall i :: 0 <= i < k ==> p(s[i])
    ensures |Filter(s, p)| >= k
  {
    if k > 0 {
      CountAtLeast(s[1..], p, k - 1);
    }
  }

  /** At least half of any integers, rounded up, are at most their median. */
  lemma MedianHalf(delays: seq<int>)
    requires delays != []
    ensures 2 * |Filter(delays, AtMost(Median(delays)))| >= |delays|
  {
    var sorted := SortBy(delays, IntLe);
    SortContents(delays, IntLe);
    assert TotalPreorder(IntLe);
    SortSorted(delays, IntLe);
    var n := |sorted|;
    var half := (n + 1) / 2;
    MiddleBound(sorted);
    forall i | 0 <= i < half ensures AtMost(Middle(sorted))(sorted[i]) {
      assert i == half - 1 || IntLe(sorted[i], sorted[half - 1]);
    }
    CountAtLeast(sorted, AtMost(Median(delays)), half);
    FilterPermutation(sorted, delays, AtMost(Median(delays)));
  }

  lemma MiddleBound(sorted: seq<int>)
    requires sorted != [] && SortedBy(sorted, IntLe)
    ensures sorted[(|sorted| + 1) / 2 - 1] as real <= Middle(sorted)
  {
    var n := |sorted|;
    if n % 2 == 0 {
      assert IntLe(sorted[n / 2 - 1], sorted[n / 2]);
    }
  }

  lemma {:induction false} EarlyCount(usable: seq<EventRow>, threshold: real)
    ensures |Filter(usable, IsEarly(threshold))| == |Filter(Map(usable, DelayOf), AtMost(threshold))|
    ensures |Filter(usable, IsEarly(threshold))| + |Filter(usable, IsLate(threshold))| == |usable|
  {
    if usable != [] {
      EarlyCount(usable[1..], threshold);
      assert Map(usable, DelayOf)[1..] == Map(usable[1..], DelayOf);
    }
  }

  /** A development stage freezes a threshold with at least half of its members, rounded up,
      in the early group and the rest, at most half rounded down, in the late group. */
  lemma DevelopmentSplit(spec: Spec, universe: seq<EventRow>, outcomes: seq<OutcomeRow>, frozen: Option<Rule>)
    requires Materialize(spec, Development, universe, outcomes, frozen).Done?
    ensures var r := Materialize(spec, Development, universe, outcomes, frozen).value;
            && r.split.early + r.split.late == r.counts.included
            && 2 * r.split.early >= r.counts.included >= 2 * r.split.late
  {
    var c := ContextOf(spec, Development, outcomes);
    var usable := Usable(c, universe);
    var threshold := Median(Map(usable, DelayOf));
    MedianHalf(Map(usable, DelayOf));
    EarlyCount(usable, threshold);
  }

  // ------------------------------------------------------------------ gates

  /** The coverage gate compares two counts; passing it means the two sets of events agree. */
  lemma CoverageLifts(c: Context, universe: seq<EventRow>)
    ensures |Filter(universe, IsEligible(c.selected))| == |Usable(c, universe)| <==>
            (forall e :: e in universe && IsEligible(c.selected)(e) ==> Includes(c, e))
  {
    forall e | e in universe && IsUsable(c)(e) ensures IsEligible(c.selected)(e) {
      UsableMeaning(c, e);
    }
    FilterSameSize(universe, IsUsable(c), IsEligible(c.selected));
    FilterMembers(universe, IsUsable(c));
    FilterMembers(universe, IsEligible(c.selected));
    if forall e :: e in universe && IsEligible(c.selected)(e) ==> Includes(c, e) {
      forall i | 0 <= i < |universe| ensures IsUsable(c)(universe[i]) == IsEligible(c.selected)(universe[i]) {
        UsableMeaning(c, universe[i]);
        assert universe[i] in universe;
      }
      FilterSame(universe, IsUsable(c), IsEligible(c.selected));
    } else {
      var e :| e in universe && IsEligible(c.selected)(e) && !Includes(c, e);
      UsableMeaning(c, e);
      assert e in Filter(universe, IsEligible(c.selected)) && e !in Usable(c, universe);
    }
  }

  /** The returns of one side of the split. */
  function Side(c: Context, usable: seq<EventRow>, side: EventRow -> bool): seq<real> {
    Map(Filter(usable, side), ReturnOf(c))
  }

  /** Mean of `late` below (or above) mean of `early`, with no division. */
  predicate MeansOrdered(expected: Expectation, early: seq<real>, late: seq<real>) {
    && early != [] && late != []
    && var a, b := Sum(early) * |late| as real, Sum(late) * |early| as real;
       if expected.Higher? then a > b else a < b
  }

  lemma QuotientsOrdered(a: real, m: real, b: real, n: real)
    requires m > 0.0 && n > 0.0
    ensures a / m > b / n <==> a * n > b * m
    ensures a / m < b / n <==> a * n < b * m
  {
    var x, y := a / m, b / n;
    assert a * n == x * (m * n) && b * m == y * (m * n);
    assert m * n > 0.0;
    ScaledOrder(x, y, m * n);
  }

  lemma ScaledOrder(x: real, y: real, k: real)
    requires k > 0.0
    ensures x * k > y * k <==> x > y
    ensures x * k < y * k <==> x < y
  {
    if x > y {
      assert (x - y) * k > 0.0;
    } else if x < y {
      assert (y - x) * k > 0.0;
    }
  }

  lemma DirectionMeaning(expected: Expectation, early: seq<real>, late: seq<real>)
    ensures |early| > 0 && |late| > 0 ==>
              (DirectionMatches(expected, SplitOf(early, late).difference) <==> MeansOrdered(expected, early, late))
  {
    if |early| > 0 && |late| > 0 {
      QuotientsOrdered(Sum(early), |early| as real, Sum(late), |late| as real);
    }
  }

  /** An out-of-sample stage promotes a rule exactly when the sample is large enough with
      both groups present, every refinement-passing analysed event has its outcome, and the
      means differ in the preregistered direction. */
  lemma PromotionMeaning(spec: Spec, universe: seq<EventRow>, outcomes: seq<OutcomeRow>, rule: Rule)
    ensures
      var result := Materialize(spec, OutOfSample, universe, outcomes, Some(rule));
      var c := ContextOf(spec, OutOfSample, outcomes);
      var usable := Usable(c, universe);
      (result.Done? && result.value.decision == PaperTradeCandidate) <==>
        && |usable| >= spec.minimumOos
        && (forall e :: e in universe && IsEligible(c.selected)(e) ==> Includes(c, e))
        && MeansOrdered(spec.expected, Side(c, usable, IsEarly(rule.threshold)),
                        Side(c, usable, IsLate(rule.threshold)))
  {
    var c := ContextOf(spec, OutOfSample, outcomes);
    var usable := Usable(c, universe);
    CoverageLifts(c, universe);
    DirectionMeaning(spec.expected, Side(c, usable, IsEarly(rule.threshold)), Side(c, usable, IsLate(rule.threshold)));
  }

  // ------------------------------------------------------------------ counts

  function HasReason(reason: string): Member -> bool {
    (m: Member) => reason in m.reasons
  }

  lemma {:induction false} TallyCounts(members: seq<Member>, reason: string)
    requires forall i :: 0 <= i < |members| ==>
             multiset(members[i].reasons)[reason] == if reason in members[i].reasons then 1 else 0
    ensures Tally(members)[reason] == |Filter(members, HasReason(reason))|
  {
    if members != [] {
      var n := |members| - 1;
      assert forall i :: 0 <= i < n ==> members[..n][i] == members[i];
      TallyCounts(members[..n], reason);
      FilterConcat(members[..n], [members[n]], HasReason(reason));
      assert members == members[..n] + [members[n]];
    }
  }

  lemma SortedSetOnce(s: seq<string>, x: string)
    ensures multiset(SortedSet(s))[x] == if x in s then 1 else 0
  {
    SortContents(Distinct(s), TextLe);
    CountDistinct(Distinct(s));
  }

  lemma {:induction false} IncludedCount(c: Context, universe: seq<EventRow>)
    ensures |Filter(Map(universe, MemberOf(c)), IsIncluded)| == |Usable(c, universe)|
  {
    if universe != [] {
      IncludedCount(c, universe[1..]);
      assert Map(universe, MemberOf(c))[1..] == Map(universe[1..], MemberOf(c));
    }
  }

  predicate IsIncluded(m: Member) {
    m.included
  }

  /** Nothing is lost: members are the universe, the included ones are counted once, and each
      exclusion code is counted once for every member that carries it. */
  lemma CountsAddUp(spec: Spec, stage: Stage, universe: seq<EventRow>, outcomes: seq<OutcomeRow>, frozen: Option<Rule>,
                    reason: string)
    requires Materialize(spec, stage, universe, outcomes, frozen).Done?
    ensures var r := Materialize(spec, stage, universe, outcomes, frozen).value;
            && |r.cohort| == r.counts.universe == |universe| == r.counts.included + r.counts.excluded
            && r.counts.included == |Filter(r.cohort, IsIncluded)|
            && r.exclusions[reason] == |Filter(r.cohort, HasReason(reason))|
  {
    var c := ContextOf(spec, stage, outcomes);
    MembersCounted(c, universe, reason);
    IncludedCount(c, universe);
  }

  /** Each member carries a code at most once, and sorting members loses none. */
  lemma MembersCounted(c: Context, universe: seq<EventRow>, reason: string)
    ensures var members := Map(universe, MemberOf(c));
            && Tally(members)[reason] == |Filter(SortBy(members, MemberLe), HasReason(reason))|
            && |Filter(SortBy(members, MemberLe), IsIncluded)| == |Filter(members, IsIncluded)|
            && |SortBy(members, MemberLe)| == |universe|
  {
    var members := Map(universe, MemberOf(c));
    MapAt(universe, MemberOf(c));
    forall i | 0 <= i < |members|
      ensures multiset(members[i].reasons)[reason] == if reason in members[i].reasons then 1 else 0
    {
      SortedSetOnce(Reasons(c, universe[i]), reason);
      SortedSetContents(Reasons(c, universe[i]));
    }
    TallyCounts(members, reason);
    SortContents(members, MemberLe);
    FilterPermutation(SortBy(members, MemberLe), members, IsIncluded);
    FilterPermutation(SortBy(members, MemberLe), members, HasReason(reason));
  }

  // ------------------------------------------------------------------ from the database

  function AnalysedFully(c: Context): EventRow -> bool {
    (e: EventRow) => FeatureComplete(e) && OutcomeFor(c, e).Some? && OutcomeComplete(OutcomeFor(c, e).value)
  }

  /** The members a stage includes are the rows its selected filter would have fetched
      directly, less those without a complete feature or a complete outcome. */
  lemma IncludedAreSelected(spec: Spec, stage: Stage, joined: Versions -> seq<EventRow>, outcomes: seq<OutcomeRow>)
    ensures
      var period := PeriodOf(spec, stage);
      var c := ContextOf(spec, stage, outcomes);
      Usable(c, Run(CohortStatement(UniverseFilter(spec.filter, period.from, period.to)), joined))
      == Filter(Run(CohortStatement(SelectedFilter(spec.filter, period.from, period.to)), joined), AnalysedFully(c))
  {
    var period := PeriodOf(spec, stage);
    var c := ContextOf(spec, stage, outcomes);
    var universe := Run(CohortStatement(UniverseFilter(spec.filter, period.from, period.to)), joined);
    UniverseThenTest(spec.filter, period.from, period.to, joined);
    forall i | 0 <= i < |universe|
      ensures IsUsable(c)(universe[i]) <==> Unrefused(c.selected)(universe[i]) && AnalysedFully(c)(universe[i])
    {
      UsableMeaning(c, universe[i]);
    }
    FilterFilter(universe, Unrefused(c.selected), AnalysedFully(c), IsUsable(c));
  }
}
