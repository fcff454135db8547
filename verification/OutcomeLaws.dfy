/** What a following-session outcome guarantees: exactly when it is complete, what the stored
    row satisfies, and how its status moves in time. */
module OutcomeLaws {
  import opened Sequences
  import opened Bars
  import opened Outcomes
  import opened OutcomePresence

  // ------------------------------------------------------------------ exactly when complete

  ghost predicate CleanPhase(c: Coverage) {
    DistinctTimes(c.bars) && forall i :: 0 <= i < |c.bars| ==> SoundPrices(c.bars[i])
  }

  ghost predicate WellCovered(c: Coverage) {
    c.observed as real >= MIN_REGULAR_COVERAGE_RATIO * c.expected as real
  }

  ghost predicate Qualifies(e: Evidence) {
    && e.regular.Some? && e.premarket.Some? && e.following.Some?
    && CleanPhase(e.regular.value) && CleanPhase(e.premarket.value) && CleanPhase(e.following.value)
    && WellCovered(e.regular.value) && WellCovered(e.following.value)
    && e.premarket.value.bars != []
    && HasTime(e.regular.value.bars, e.regular.value.end - MINUTE)
    && var (bars, open) := (e.following.value.bars, e.following.value.start);
       && HasTime(bars, open) && HasTime(bars, open + 4 * MINUTE) && HasTime(bars, open + 29 * MINUTE)
       && HasTime(bars, open + 59 * MINUTE) && HasTime(bars, e.following.value.end - MINUTE)
  }

  predicate Full(p: Presence) {
    p.reference && p.premarket && p.opening && p.following && p.closing && p.five && p.thirty && p.sixty
  }

  lemma AllPresent(p: Presence)
    ensures AbsentNames(PresenceFields(p)) == [] <==> Full(p)
  {
    var fields := PresenceFields(p);
    NothingAbsent(fields);
    assert fields[0].present == p.reference;
    assert fields[2].present == p.premarket && fields[6].present == p.opening;
    assert fields[7].present == p.following && fields[9].present == p.closing;
    assert fields[10].present == (p.reference && p.five);
    assert fields[11].present == (p.reference && p.thirty);
    assert fields[12].present == (p.reference && p.sixty);
  }

  lemma NoFieldAbsent(e: Evidence)
    requires Computable(e)
    ensures AbsentNames(RequiredFields(ValuesOf(e))) == [] <==> Full(PresenceOf(e))
  {
    FieldsByPresence(e);
    AllPresent(PresenceOf(e));
  }

  lemma NothingMissing(e: Evidence)
    requires Computable(e)
    ensures Missing(e) == [] <==> Full(PresenceOf(e)) && Defects(e) == []
  {
    NoFieldAbsent(e);
  }

  lemma ThinMeaning(c: Coverage)
    requires c.expected > 0
    ensures !IsThin()(c) <==> WellCovered(c)
  {
    var x, n := c.observed as real / c.expected as real, c.expected as real;
    assert c.observed as real == x * n;
    ScaleOrder(x, MIN_REGULAR_COVERAGE_RATIO, n);
  }

  lemma ScaleOrder(x: real, k: real, n: real)
    requires n > 0.0
    ensures x * n >= k * n <==> x >= k
  {
    if x < k {
      assert (k - x) * n > 0.0;
    }
  }

  lemma PhaseTests(phases: seq<Option<Coverage>>)
    ensures Flagged(phases, IsInvalid(), "_invalid_bar")
            + Flagged(phases, IsRepeating(), "_duplicate_timestamp") == [] <==>
            forall i :: 0 <= i < |phases| && phases[i].Some? ==> CleanPhase(phases[i].value)
  {
    NothingFlagged(phases, IsInvalid(), "_invalid_bar");
    NothingFlagged(phases, IsRepeating(), "_duplicate_timestamp");
    forall i | 0 <= i < |phases| && phases[i].Some?
      ensures CleanPhase(phases[i].value) <==> !IsInvalid()(phases[i].value) && !IsRepeating()(phases[i].value)
    {
      TimesCount(phases[i].value.bars);
    }
  }

  lemma NoDefects(e: Evidence)
    requires Computable(e)
    ensures Defects(e) == [] <==>
            && (e.regular.Some? ==> CleanPhase(e.regular.value) && WellCovered(e.regular.value))
            && (e.premarket.Some? ==> CleanPhase(e.premarket.value))
            && (e.following.Some? ==> CleanPhase(e.following.value) && WellCovered(e.following.value))
  {
    var phases, regular := AllPhases(e), RegularPhases(e);
    PhaseTests(phases);
    NothingFlagged(regular, IsThin(), "_coverage");
    assert regular[0] == e.regular && regular[1] == e.following;
    assert phases[0] == e.regular && phases[1] == e.premarket && phases[2] == e.following;
    if e.regular.Some? {
      ThinMeaning(e.regular.value);
    }
    if e.following.Some? {
      ThinMeaning(e.following.value);
    }
  }

  /** A final status is complete exactly when the evidence qualifies. */
  lemma CompleteExactly(e: Evidence)
    requires Computable(e)
    ensures FinalStatus(e) == CompleteOutcome <==> Qualifies(e)
  {
    NothingMissing(e);
    NoDefects(e);
    QualifiesWhen(e);
  }

  lemma QualifiesWhen(e: Evidence)
    ensures Qualifies(e) <==>
            && Full(PresenceOf(e))
            && (e.regular.Some? ==> CleanPhase(e.regular.value) && WellCovered(e.regular.value))
            && (e.premarket.Some? ==> CleanPhase(e.premarket.value))
            && (e.following.Some? ==> CleanPhase(e.following.value) && WellCovered(e.following.value))
  {
    if e.following.Some? && HasTime(e.following.value.bars, e.following.value.start) {
      assert e.following.value.bars != [];
    }
  }

  // ------------------------------------------------------------------ the stored row

  lemma SortedSetEmpty(s: seq<string>)
    ensures SortedSet(s) == [] <==> s == []
  {
    SortedSetContents(s);
    if s != [] {
      assert s[0] in SortedSet(s);
    }
  }

  lemma PhasesMissing(e: Evidence)
    ensures MissingPhases(e) == [] <==> e.regular.Some? && e.premarket.Some? && e.following.Some?
  {
    var fields := [Field("earnings_regular", e.regular.Some?), Field("following_premarket", e.premarket.Some?),
                   Field("following_regular", e.following.Some?)];
    NothingAbsent(fields);
    assert fields[0].present == e.regular.Some? && fields[1].present == e.premarket.Some?
           && fields[2].present == e.following.Some?;
  }

  /** A phase that is absent always leaves a required field absent too. */
  lemma MissingPhaseMissesField(e: Evidence)
    requires Computable(e) && MissingPhases(e) != []
    ensures Missing(e) != []
  {
    PhasesMissing(e);
    NothingMissing(e);
  }

  ghost predicate AllThirteen(v: Values) {
    forall i :: 0 <= i < |RequiredFields(v)| ==> RequiredFields(v)[i].present
  }

  /** The table's status check: a complete row lacks nothing and an insufficient one says what
      it lacks. */
  lemma StatusCheckHolds(e: Evidence, now: int)
    requires Computable(e)
    ensures var r := OutcomeAt(e, now);
            && (r.status == CompleteOutcome ==> r.missing == [] && AllThirteen(r.values))
            && (r.status == InsufficientData ==> r.missing != [])
  {
    assert Missing(e) == [] ==> MissingPhases(e) == [] by {
      if MissingPhases(e) != [] {
        MissingPhaseMissesField(e);
      }
    }
    SortedSetEmpty(MissingPhases(e) + Missing(e));
    CompleteHasAll(e);
  }

  lemma CompleteHasAll(e: Evidence)
    requires Computable(e)
    ensures FinalStatus(e) == CompleteOutcome ==> AllThirteen(ValuesOf(e))
  {
    NothingAbsent(RequiredFields(ValuesOf(e)));
  }

  ghost predicate Within(lo: Option<real>, x: Option<real>, hi: Option<real>) {
    lo.Some? && x.Some? && hi.Some? && lo.value <= x.value <= hi.value
  }

  lemma ExtremesBound(bars: seq<Bar>, b: Bar)
    requires b in bars && SoundPrices(b)
    ensures Highest(bars).Some? && Lowest(bars).Some?
    ensures Lowest(bars).value <= b.open <= Highest(bars).value
    ensures Lowest(bars).value <= b.close <= Highest(bars).value
  {
    var i :| 0 <= i < |bars| && bars[i] == b;
    MapAt(bars, HighOf());
    MapAt(bars, LowOf());
    MaxOfGreatest(Map(bars, HighOf()));
    MinOfLeast(Map(bars, LowOf()));
    assert Map(bars, HighOf())[i] == b.high && Map(bars, LowOf())[i] == b.low;
  }

  lemma ReturnBetween(p: real, lo: Option<real>, x: real, hi: Option<real>)
    requires p > 0.0 && lo.Some? && hi.Some? && lo.value <= x <= hi.value
    ensures Within(Return(Some(p), lo), Return(Some(p), Some(x)), Return(Some(p), hi))
  {
    PctChangeMonotone(p, lo.value, x);
    PctChangeMonotone(p, x, hi.value);
  }

  lemma KeptBarSound(c: Coverage, b: Bar)
    requires CleanPhase(c) && b in BarsOf(Some(c))
    ensures SoundPrices(b)
  {
    DeduplicatedAscending(c.bars);
    assert b in c.bars;
    var i :| 0 <= i < |c.bars| && c.bars[i] == b;
  }

  /** Any price of the session, as a return, lies between the low and the high return. */
  lemma ReturnInside(e: Evidence, b: Bar)
    requires Computable(e) && Qualifies(e) && b in BarsOf(e.following)
    ensures var r := Returns(Reference(e), RegularPrices(e));
            && Within(r.low, Return(Reference(e), Some(b.open)), r.high)
            && Within(r.low, Return(Reference(e), Some(b.close)), r.high)
  {
    var bars := BarsOf(e.following);
    KeptBarSound(e.following.value, b);
    ExtremesBound(bars, b);
    ReferencePositive(e);
    ReturnBetween(Reference(e).value, Lowest(bars), b.open, Highest(bars));
    ReturnBetween(Reference(e).value, Lowest(bars), b.close, Highest(bars));
  }

  lemma ReferencePositive(e: Evidence)
    requires Computable(e) && Qualifies(e)
    ensures Reference(e).Some? && Reference(e).value > 0.0
  {
    var c := e.regular.value;
    ExactPresent(c, c.end - MINUTE);
    KeptBarSound(c, Exact(Some(c), c.end - MINUTE).value);
  }

  lemma HorizonInside(e: Evidence, minute: int)
    requires Computable(e) && Qualifies(e) && minute in {5, 30, 60}
    ensures var r := Returns(Reference(e), RegularPrices(e)); Within(r.low, HorizonReturn(e, minute), r.high)
  {
    HorizonsPresent(e);
    ReturnInside(e, HorizonBar(e.following, minute).value);
  }

  /** Every regular-session label of a complete outcome lies inside the session's range. */
  lemma LabelsInside(e: Evidence)
    requires Computable(e) && FinalStatus(e) == CompleteOutcome
    ensures var r := ValuesOf(e).regularReturns;
            && Within(r.low, r.first, r.high) && Within(r.low, r.last, r.high)
            && Within(r.low, HorizonReturn(e, 5), r.high) && Within(r.low, HorizonReturn(e, 30), r.high)
            && Within(r.low, HorizonReturn(e, 60), r.high)
  {
    CompleteExactly(e);
    FollowingPresent(e);
    ReturnInside(e, OpeningBar(e.following).value);
    ReturnInside(e, ClosingBar(e.following).value);
    HorizonInside(e, 5);
    HorizonInside(e, 30);
    HorizonInside(e, 60);
  }

  // ------------------------------------------------------------------ status over time

  /** The first instant at which the status is final. */
  function FinalFrom(e: Evidence): int {
    if e.following.Some? && e.following.value.observed >= e.following.value.expected
        && e.following.value.end < AvailableAfter(e)
    then e.following.value.end
    else AvailableAfter(e)
  }

  /** The status is pending before one instant and one fixed final status from it on. */
  lemma StatusOverTime(e: Evidence, now: int)
    requires Computable(e)
    ensures StatusAt(e, now) == if now < FinalFrom(e) then NotYetAvailable else FinalStatus(e)
    ensures FinalStatus(e) != NotYetAvailable
  {
  }
}
