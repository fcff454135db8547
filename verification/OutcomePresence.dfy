/** Which labels of an outcome are present, and when its lists of defects are empty. */
module OutcomePresence {
  import opened Sequences
  import opened Bars
  import opened Outcomes

  // ------------------------------------------------------------------ which fields are present

  ghost predicate HasTime(bars: seq<Bar>, t: int) {
    exists i :: 0 <= i < |bars| && bars[i].ts == t
  }

  datatype Presence = Presence(
    reference: bool, premarket: bool, opening: bool, following: bool, closing: bool, five: bool, thirty: bool,
    sixty: bool)

  ghost function PresenceOf(e: Evidence): Presence {
    Presence(
      e.regular.Some? && HasTime(e.regular.value.bars, e.regular.value.end - MINUTE),
      e.premarket.Some? && e.premarket.value.bars != [],
      e.following.Some? && HasTime(e.following.value.bars, e.following.value.start),
      e.following.Some? && e.following.value.bars != [],
      e.following.Some? && HasTime(e.following.value.bars, e.following.value.end - MINUTE),
      e.following.Some? && HasTime(e.following.value.bars, e.following.value.start + 4 * MINUTE),
      e.following.Some? && HasTime(e.following.value.bars, e.following.value.start + 29 * MINUTE),
      e.following.Some? && HasTime(e.following.value.bars, e.following.value.start + 59 * MINUTE))
  }

  function PresenceFields(p: Presence): seq<Field> {
    [Field("reference_close", p.reference), Field("reference_close_ts", p.reference)]
    + [Field("premarket_first", p.premarket), Field("premarket_high", p.premarket),
       Field("premarket_low", p.premarket), Field("premarket_last", p.premarket)]
    + [Field("regular_open", p.opening), Field("regular_high", p.following),
       Field("regular_low", p.following), Field("regular_close", p.closing)]
    + [Field("regular_return_5m", p.reference && p.five), Field("regular_return_30m", p.reference && p.thirty),
       Field("regular_return_60m", p.reference && p.sixty)]
  }

  lemma ExactPresent(c: Coverage, t: int)
    ensures Exact(Some(c), t).Some? <==> HasTime(c.bars, t)
  {
    DeduplicatedAt(c.bars, t);
  }

  lemma BarsPresent(c: Coverage)
    ensures BarsOf(Some(c)) != [] <==> c.bars != []
  {
    DeduplicatedAscending(c.bars);
    if c.bars != [] {
      assert c.bars[0] in c.bars;
    }
    if BarsOf(Some(c)) != [] {
      assert BarsOf(Some(c))[0] in c.bars;
    }
  }

  lemma FollowingPresent(e: Evidence)
    requires Computable(e)
    ensures var (v, p) := (RegularPrices(e), PresenceOf(e));
            && (v.first.Some? <==> p.opening) && (v.last.Some? <==> p.closing)
            && (v.high.Some? <==> p.following) && (v.low.Some? <==> p.following)
  {
    if e.following.Some? {
      var c := e.following.value;
      ExactPresent(c, c.start);
      ExactPresent(c, c.end - MINUTE);
      BarsPresent(c);
    }
  }

  lemma HorizonsPresent(e: Evidence)
    ensures var p := PresenceOf(e);
            && (HorizonBar(e.following, 5).Some? <==> p.five)
            && (HorizonBar(e.following, 30).Some? <==> p.thirty)
            && (HorizonBar(e.following, 60).Some? <==> p.sixty)
  {
    if e.following.Some? {
      var c := e.following.value;
      ExactPresent(c, c.start + 4 * MINUTE);
      ExactPresent(c, c.start + 29 * MINUTE);
      ExactPresent(c, c.start + 59 * MINUTE);
    }
  }

  ghost predicate Shows(v: Values, p: Presence) {
    && v.reference.Some? == v.referenceTs.Some? == p.reference
    && v.premarket.first.Some? == v.premarket.high.Some? == v.premarket.low.Some? == v.premarket.last.Some?
        == p.premarket
    && v.regular.first.Some? == p.opening && v.regular.last.Some? == p.closing
    && v.regular.high.Some? == v.regular.low.Some? == p.following
    && HorizonPresent(v, 5) == (p.reference && p.five)
    && HorizonPresent(v, 30) == (p.reference && p.thirty)
    && HorizonPresent(v, 60) == (p.reference && p.sixty)
  }

  lemma HorizonsShown(e: Evidence)
    requires Computable(e)
    ensures var v := ValuesOf(e);
            && HorizonPresent(v, 5) == HorizonReturn(e, 5).Some?
            && HorizonPresent(v, 30) == HorizonReturn(e, 30).Some?
            && HorizonPresent(v, 60) == HorizonReturn(e, 60).Some?
  {
  }

  lemma ValuesShow(e: Evidence)
    requires Computable(e)
    ensures Shows(ValuesOf(e), PresenceOf(e))
  {
    FollowingPresent(e);
    HorizonsPresent(e);
    HorizonsShown(e);
    if e.regular.Some? {
      ExactPresent(e.regular.value, e.regular.value.end - MINUTE);
    }
    if e.premarket.Some? {
      BarsPresent(e.premarket.value);
    }
  }

  lemma FieldsByPresence(e: Evidence)
    requires Computable(e)
    ensures RequiredFields(ValuesOf(e)) == PresenceFields(PresenceOf(e))
  {
    ValuesShow(e);
  }

  // ------------------------------------------------------------------ empty lists of defects

  lemma {:induction false} NothingAbsent(fields: seq<Field>)
    ensures AbsentNames(fields) == [] <==> forall i :: 0 <= i < |fields| ==> fields[i].present
  {
    if fields != [] {
      NothingAbsent(fields[..|fields| - 1]);
      assert forall i :: 0 <= i < |fields| - 1 ==> fields[..|fields| - 1][i] == fields[i];
      assert fields == fields[..|fields| - 1] + [fields[|fields| - 1]];
    }
  }

  lemma {:induction false} NothingFlagged(phases: seq<Option<Coverage>>, test: Coverage -> bool, suffix: string)
    requires suffix != ""
    ensures Flagged(phases, test, suffix) == []
            <==> forall i :: 0 <= i < |phases| && phases[i].Some? ==> !test(phases[i].value)
  {
    if phases != [] {
      NothingFlagged(phases[..|phases| - 1], test, suffix);
      assert phases == phases[..|phases| - 1] + [phases[|phases| - 1]];
    }
  }

  lemma {:induction false} TimesCount(bars: seq<Bar>)
    ensures |Times(bars)| <= |bars|
    ensures |Times(bars)| == |bars| <==> DistinctTimes(bars)
  {
    if bars != [] {
      var n := |bars| - 1;
      var front, last := bars[..n], bars[n].ts;
      TimesCount(front);
      assert Times(bars) == Times(front) + {last};
      if last in Times(front) {
        assert Times(bars) == Times(front);
      } else {
        assert forall i :: 0 <= i < n ==> bars[i].ts == front[i].ts && front[i].ts in Times(front);
      }
    }
  }
}
