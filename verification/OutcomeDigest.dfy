/** What the digest of the evidence decides: status and missing fields always, values and the
    whole result exactly when bars of one time do not differ. */
module OutcomeDigest {
  import opened Sequences
  import opened Bars
  import opened Outcomes
  import opened OutcomePresence
  import opened OutcomeLaws

  // ------------------------------------------------------------------ the digest decides

  lemma CanonicalSame(a: Option<Coverage>, b: Option<Coverage>)
    requires Canonical(a) == Canonical(b)
    ensures a.Some? <==> b.Some?
    ensures a.Some? ==> a.value.(flags := [], bars := []) == b.value.(flags := [], bars := [])
    ensures a.Some? ==> multiset(a.value.bars) == multiset(b.value.bars) && |a.value.bars| == |b.value.bars|
    ensures forall x :: x in FlagsOf(a) <==> x in FlagsOf(b)
  {
    if a.Some? {
      SortContents(a.value.bars, BarLe);
      SortContents(b.value.bars, BarLe);
      SortedSetCanonical(a.value.flags, b.value.flags);
      var bare := (c: Coverage) => c.(flags := [], bars := []);
      assert bare(Canonical(a).value) == bare(a.value) && bare(Canonical(b).value) == bare(b.value);
    }
  }

  lemma SameTimes(a: seq<Bar>, b: seq<Bar>, t: int)
    requires multiset(a) == multiset(b)
    ensures HasTime(a, t) <==> HasTime(b, t)
  {
    SameContents(a, b);
    if HasTime(a, t) {
      var i :| 0 <= i < |a| && a[i].ts == t;
      assert a[i] in b;
    }
    if HasTime(b, t) {
      var i :| 0 <= i < |b| && b[i].ts == t;
      assert b[i] in a;
    }
  }

  lemma SameTests(a: Coverage, b: Coverage)
    requires a.(flags := [], bars := []) == b.(flags := [], bars := []) && multiset(a.bars) == multiset(b.bars)
    ensures a.phase == b.phase
    ensures && IsThin()(a) == IsThin()(b)
            && IsInvalid()(a) == IsInvalid()(b)
            && IsRepeating()(a) == IsRepeating()(b)
  {
    SameContents(a.bars, b.bars);
    assert a.observed == b.observed && a.expected == b.expected && a.phase == b.phase by {
      var bare := (c: Coverage) => c.(flags := [], bars := []);
      assert bare(a) == bare(b);
      assert bare(a).observed == a.observed && bare(b).observed == b.observed;
    }
    SameInvalid(a.bars, b.bars);
    SameInvalid(b.bars, a.bars);
    TimesCount(a.bars);
    TimesCount(b.bars);
    if DistinctTimes(a.bars) {
      DistinctTimesContents(a.bars, b.bars);
    }
    if DistinctTimes(b.bars) {
      DistinctTimesContents(b.bars, a.bars);
    }
  }

  lemma SameInvalid(a: seq<Bar>, b: seq<Bar>)
    requires forall x :: x in a <==> x in b
    ensures HasInvalidBar(a) ==> HasInvalidBar(b)
  {
    if HasInvalidBar(a) {
      var i :| 0 <= i < |a| && !SoundPrices(a[i]);
      assert a[i] in b;
    }
  }

  ghost predicate AlikePhases(a: seq<Option<Coverage>>, b: seq<Option<Coverage>>) {
    |a| == |b| && forall i :: 0 <= i < |a| ==> Canonical(a[i]) == Canonical(b[i])
  }

  lemma {:induction false} FlaggedSame(a: seq<Option<Coverage>>, b: seq<Option<Coverage>>, test: Coverage -> bool,
                                       suffix: string)
    requires AlikePhases(a, b) && (test == IsThin() || test == IsInvalid() || test == IsRepeating())
    ensures Flagged(a, test, suffix) == Flagged(b, test, suffix)
  {
    if a != [] {
      var n := |a| - 1;
      FlaggedSame(a[..n], b[..n], test, suffix);
      CanonicalSame(a[n], b[n]);
      if a[n].Some? {
        SameTests(a[n].value, b[n].value);
      }
    }
  }

  lemma PresenceSame(a: Evidence, b: Evidence)
    requires Preimage(a) == Preimage(b)
    ensures PresenceOf(a) == PresenceOf(b)
  {
    CanonicalSame(a.regular, b.regular);
    CanonicalSame(a.premarket, b.premarket);
    CanonicalSame(a.following, b.following);
    if a.regular.Some? {
      SameBounds(a.regular.value, b.regular.value);
      SameTimes(a.regular.value.bars, b.regular.value.bars, a.regular.value.end - MINUTE);
    }
    if a.following.Some? {
      var (x, y) := (a.following.value, b.following.value);
      SameBounds(x, y);
      SameTimes(x.bars, y.bars, x.start);
      SameTimes(x.bars, y.bars, x.end - MINUTE);
      SameTimes(x.bars, y.bars, x.start + 4 * MINUTE);
      SameTimes(x.bars, y.bars, x.start + 29 * MINUTE);
      SameTimes(x.bars, y.bars, x.start + 59 * MINUTE);
    }
  }

  lemma SameBounds(a: Coverage, b: Coverage)
    requires a.(flags := [], bars := []) == b.(flags := [], bars := [])
    ensures && a.start == b.start
            && a.end == b.end
            && a.observed == b.observed
            && a.expected == b.expected
            && a.phase == b.phase
  {
    var bare := (c: Coverage) => c.(flags := [], bars := []);
    assert bare(a) == bare(b);
    assert bare(a).start == a.start && bare(b).start == b.start;
  }

  lemma DefectsSame(a: Evidence, b: Evidence)
    requires Preimage(a) == Preimage(b)
    ensures Defects(a) == Defects(b)
  {
    FlaggedSame(RegularPhases(a), RegularPhases(b), IsThin(), "_coverage");
    FlaggedSame(AllPhases(a), AllPhases(b), IsInvalid(), "_invalid_bar");
    FlaggedSame(AllPhases(a), AllPhases(b), IsRepeating(), "_duplicate_timestamp");
  }

  /** Evidence with one digest has one final status and one list of missing fields, whatever
      its bars are. */
  lemma DigestDecidesStatus(a: Evidence, b: Evidence, now: int)
    requires Computable(a) && Computable(b) && Preimage(a) == Preimage(b)
    ensures FinalStatus(a) == FinalStatus(b)
    ensures OutcomeAt(a, now).missing == OutcomeAt(b, now).missing
  {
    FieldsByPresence(a);
    FieldsByPresence(b);
    PresenceSame(a, b);
    DefectsSame(a, b);
    CanonicalSame(a.regular, b.regular);
    CanonicalSame(a.premarket, b.premarket);
    CanonicalSame(a.following, b.following);
  }

  // ------------------------------------------------------------------ when the digest decides the bars

  /** Two bars that the digest cannot order: equal but for an absent volume and one of -1. */
  predicate Tied(x: Bar, y: Bar) {
    BarLe(x, y) && BarLe(y, x)
  }

  /** Bars of one time are the same bar to the digest. */
  ghost predicate OneBarATime(bars: seq<Bar>) {
    forall x, y :: x in bars && y in bars && x.ts == y.ts ==> Tied(x, y)
  }

  lemma BarLeOrder()
    ensures TotalPreorder(BarLe)
  {
  }

  lemma {:induction false} InsertKeepsAt(x: Bar, s: seq<Bar>, t: int)
    requires forall y :: y in s && y.ts == x.ts ==> BarLe(x, y)
    ensures At(Insert(x, s, BarLe), t) == if x.ts == t then Some(x) else At(s, t)
  {
    if s != [] && !BarLe(x, s[0]) {
      assert s[0] in s;
      InsertKeepsAt(x, s[1..], t);
    }
  }

  lemma OneBarTail(bars: seq<Bar>)
    requires OneBarATime(bars) && bars != []
    ensures OneBarATime(bars[1..])
    ensures forall y :: y in bars[1..] && y.ts == bars[0].ts ==> BarLe(bars[0], y)
  {
    assert forall y :: y in bars[1..] ==> y in bars;
    assert bars[0] in bars;
  }

  /** With one bar a time the digest's order keeps the bar that is read at each time. */
  lemma {:induction false} CanonicalAt(bars: seq<Bar>, t: int)
    requires OneBarATime(bars)
    ensures At(SortBy(bars, BarLe), t) == At(bars, t)
  {
    if bars != [] {
      var rest := bars[1..];
      OneBarTail(bars);
      CanonicalAt(rest, t);
      SortContents(rest, BarLe);
      InsertKeepsAt(bars[0], SortBy(rest, BarLe), t);
    }
  }

  lemma {:induction false} AscendingAt(bars: seq<Bar>, b: Bar)
    requires Ascending(bars)
    ensures b in bars <==> At(bars, b.ts) == Some(b)
  {
    if bars != [] {
      AscendingAt(bars[1..], b);
      assert bars == [bars[0]] + bars[1..];
    }
  }

  lemma SameReadings(a: seq<Bar>, b: seq<Bar>)
    requires forall t :: At(a, t) == At(b, t)
    ensures Deduplicated(a) == Deduplicated(b)
  {
    DeduplicatedAscending(a);
    DeduplicatedAscending(b);
    forall x ensures x in Deduplicated(a) <==> x in Deduplicated(b) {
      AscendingAt(Deduplicated(a), x);
      AscendingAt(Deduplicated(b), x);
      DeduplicatedAt(a, x.ts);
      DeduplicatedAt(b, x.ts);
    }
    AscendingUnique(Deduplicated(a), Deduplicated(b));
  }

  lemma SameDigestSameBars(a: seq<Bar>, b: seq<Bar>)
    requires SortBy(a, BarLe) == SortBy(b, BarLe) && OneBarATime(a)
    ensures Deduplicated(a) == Deduplicated(b)
  {
    SortContents(a, BarLe);
    SortContents(b, BarLe);
    forall t ensures At(a, t) == At(b, t) {
      CanonicalAt(a, t);
      CanonicalAt(b, t);
    }
    SameReadings(a, b);
  }

  /** Any bar, up to ties, can be supplied first under the same digest. */
  lemma SuppliedFirst(bars: seq<Bar>, b: Bar) returns (front: seq<Bar>)
    requires b in bars
    ensures SortBy(front, BarLe) == SortBy(bars, BarLe)
    ensures At(Deduplicated(front), b.ts).Some? && Tied(At(Deduplicated(front), b.ts).value, b)
  {
    var i: nat :| i < |bars| && bars[i] == b;
    var first := FirstTied(bars, b, i);
    BarLeOrder();
    SortFront(bars, first, BarLe);
    front := [bars[first]] + Without(bars, first);
    DeduplicatedAt(front, b.ts);
  }

  lemma {:induction false} FirstTied(bars: seq<Bar>, b: Bar, i: nat) returns (first: nat)
    requires i < |bars| && Tied(bars[i], b)
    ensures first <= i && Tied(bars[first], b)
    ensures forall j :: 0 <= j < first ==> !Tied(bars[j], bars[first])
  {
    BarLeOrder();
    if j: nat :| j < i && Tied(bars[j], bars[i]) {
      first := FirstTied(bars, b, j);
    } else {
      first := i;
    }
  }

  /** Every supply of bars with this digest gives the same bars to read from. */
  ghost predicate DigestDecidesBars(c: Coverage) {
    forall bars :: Canonical(Some(c.(bars := bars))) == Canonical(Some(c)) ==>
                     BarsOf(Some(c.(bars := bars))) == BarsOf(Some(c))
  }

  lemma SameCanonicalBars(c: Coverage, bars: seq<Bar>)
    ensures Canonical(Some(c.(bars := bars))) == Canonical(Some(c)) <==> SortBy(bars, BarLe) == SortBy(c.bars, BarLe)
  {
    var flags := SortedSet(c.flags);
    var sorted := (s: seq<Bar>) => c.(bars := s, flags := flags);
    assert Canonical(Some(c)).value == sorted(SortBy(c.bars, BarLe));
    assert Canonical(Some(c.(bars := bars))).value == sorted(SortBy(bars, BarLe));
    assert sorted(SortBy(c.bars, BarLe)).bars == SortBy(c.bars, BarLe);
    assert sorted(SortBy(bars, BarLe)).bars == SortBy(bars, BarLe);
  }

  /** The digest decides which bars are read exactly when bars of one time do not differ. */
  lemma DigestDecidesBarsExactly(c: Coverage)
    ensures DigestDecidesBars(c) <==> OneBarATime(c.bars)
  {
    if OneBarATime(c.bars) {
      forall bars | Canonical(Some(c.(bars := bars))) == Canonical(Some(c))
        ensures BarsOf(Some(c.(bars := bars))) == BarsOf(Some(c))
      {
        SameCanonicalBars(c, bars);
        SameDigestSameBars(c.bars, bars);
      }
    } else {
      var x, y :| x in c.bars && y in c.bars && x.ts == y.ts && !Tied(x, y);
      var a := SuppliedFirst(c.bars, x);
      var b := SuppliedFirst(c.bars, y);
      SameCanonicalBars(c, a);
      SameCanonicalBars(c, b);
      BarLeOrder();
      assert Deduplicated(a) != Deduplicated(b);
      assert BarsOf(Some(c.(bars := a))) == Deduplicated(a) && BarsOf(Some(c.(bars := b))) == Deduplicated(b);
    }
  }

  // ------------------------------------------------------------------ values and results

  ghost predicate DecidedPhase(c: Option<Coverage>) {
    c.Some? ==> OneBarATime(c.value.bars)
  }

  lemma BarsSame(a: Option<Coverage>, b: Option<Coverage>)
    requires Canonical(a) == Canonical(b) && DecidedPhase(a)
    ensures BarsOf(a) == BarsOf(b)
  {
    if a.Some? {
      assert SortBy(a.value.bars, BarLe) == Canonical(a).value.bars;
      assert SortBy(b.value.bars, BarLe) == Canonical(b).value.bars;
      SameDigestSameBars(a.value.bars, b.value.bars);
    }
  }

  lemma ReadingsSame(a: Option<Coverage>, b: Option<Coverage>, minute: int)
    requires Canonical(a) == Canonical(b) && DecidedPhase(a)
    ensures && ClosingBar(a) == ClosingBar(b)
            && OpeningBar(a) == OpeningBar(b)
            && HorizonBar(a, minute) == HorizonBar(b, minute)
  {
    BarsSame(a, b);
    CanonicalSame(a, b);
    if a.Some? {
      SameBounds(a.value, b.value);
    }
  }

  /** With one bar a time the digest decides every value as well. */
  lemma DigestDecidesValues(a: Evidence, b: Evidence)
    requires Computable(a) && Computable(b) && Preimage(a) == Preimage(b)
    requires DecidedPhase(a.regular) && DecidedPhase(a.premarket) && DecidedPhase(a.following)
    ensures ValuesOf(a) == ValuesOf(b)
  {
    ReadingsSame(a.regular, b.regular, 5);
    BarsSame(a.premarket, b.premarket);
    BarsSame(a.following, b.following);
    ReadingsSame(a.following, b.following, 5);
    ReadingsSame(a.following, b.following, 30);
    ReadingsSame(a.following, b.following, 60);
  }

  /** Where a phase repeats a time, the final status is insufficient. */
  lemma RepeatedTimeIsInsufficient(e: Evidence, c: Coverage)
    requires Computable(e) && Some(c) in {e.regular, e.premarket, e.following} && !DistinctTimes(c.bars)
    ensures FinalStatus(e) == InsufficientData
  {
    CompleteExactly(e);
  }

  function OneMinute(price: real): Bar {
    Bar(0, price, price, price, price, Some(1))
  }

  /** Evidence whose only phase holds two bars of its last minute. */
  function TwiceClosed(first: real, second: real): Evidence {
    Evidence("AAA", 0, 0,
             Some(Coverage("earnings_regular", 0, "regular", 0, 60, 1, 1, "gateway", 0, HASH, "scheduled_capture",
                           "", "", [], [OneMinute(first), OneMinute(second)])),
             None, None)
  }

  lemma TwiceClosedReference(first: real, second: real)
    requires first > 0.0
    ensures Computable(TwiceClosed(first, second)) && ValuesOf(TwiceClosed(first, second)).reference == Some(first)
    ensures FinalStatus(TwiceClosed(first, second)) == InsufficientData
  {
    var e := TwiceClosed(first, second);
    DeduplicatedAt(e.regular.value.bars, 0);
    assert e.regular.value.bars[0].ts == e.regular.value.bars[1].ts;
    RepeatedTimeIsInsufficient(e, e.regular.value);
  }

  lemma TwoSorted(x: Bar, y: Bar)
    requires !Tied(x, y)
    ensures SortBy([x, y], BarLe) == SortBy([y, x], BarLe)
  {
    BarLeOrder();
    SortFront([x, y], 1, BarLe);
    assert [y] + Without([x, y], 1) == [y, x];
  }

  /** One digest, two reference closes: the bar supplied first is read. Either way the final
      status is insufficient. */
  lemma RepeatedTimeIsOrderDependent() returns (a: Evidence, b: Evidence)
    ensures Computable(a) && Computable(b) && Preimage(a) == Preimage(b)
    ensures ValuesOf(a).reference == Some(100.0) && ValuesOf(b).reference == Some(101.0)
    ensures FinalStatus(a) == FinalStatus(b) == InsufficientData
  {
    a, b := TwiceClosed(100.0, 101.0), TwiceClosed(101.0, 100.0);
    TwiceClosedReference(100.0, 101.0);
    TwiceClosedReference(101.0, 100.0);
    TwoSorted(OneMinute(100.0), OneMinute(101.0));
    assert Canonical(a.regular) == Canonical(b.regular);
  }

  lemma FlagsSame(a: Evidence, b: Evidence)
    requires Preimage(a) == Preimage(b)
    ensures SortedSet(AllFlags(a)) == SortedSet(AllFlags(b))
  {
    CanonicalSame(a.regular, b.regular);
    CanonicalSame(a.premarket, b.premarket);
    CanonicalSame(a.following, b.following);
    FlaggedSame(AllPhases(a), AllPhases(b), IsInvalid(), "_invalid_bar");
    FlaggedSame(AllPhases(a), AllPhases(b), IsRepeating(), "_duplicate_timestamp");
    SortedSetUnique(AllFlags(a), AllFlags(b));
  }

  /** Two computations that reach a final status on evidence with one digest and one bar a time
      are the same result, up to when the session was expected to close. */
  lemma DigestDecidesResult(a: Evidence, b: Evidence, now: int, later: int)
    requires Computable(a) && Computable(b) && Preimage(a) == Preimage(b)
    requires DecidedPhase(a.regular) && DecidedPhase(a.premarket) && DecidedPhase(a.following)
    requires StatusAt(a, now) != NotYetAvailable && StatusAt(b, later) != NotYetAvailable
    ensures OutcomeAt(b, later) == OutcomeAt(a, now).(availableAfter := AvailableAfter(b))
  {
    DigestDecidesStatus(a, b, now);
    DigestDecidesValues(a, b);
    FlagsSame(a, b);
    assert Preimage(a).symbol == Preimage(b).symbol && Preimage(a).date == Preimage(b).date;
  }
}
