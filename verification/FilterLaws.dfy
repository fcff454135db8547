/** Whole cohort queries: what a built statement fetches, and that fetching a universe and
    testing its rows fetches the same. */
module FilterLaws {
  import opened Sequences
  import opened Filters
  import opened FilterConditions

  // ------------------------------------------------------------------ whole queries

  predicate InScope(row: EventRow, f: EventFilter) {
    && row.hour == Some("amc") && row.liquidityExcludedAt.None? && row.supersededAt.None?
    && (f.dateFrom.Some? ==> f.dateFrom.value <= row.date)
    && (f.dateTo.Some? ==> row.date <= f.dateTo.value)
    && (f.symbols != [] ==> row.symbol in f.symbols)
  }

  function Accepts(f: EventFilter): EventRow -> bool {
    (row: EventRow) => InScope(row, f) && ExclusionReasons(row, f) == []
  }

  lemma ScopeConditionsMean(row: EventRow, f: EventFilter)
    ensures AllHold(row, ScopeConditions(f)) <==>
      && (f.dateFrom.Some? ==> f.dateFrom.value <= row.date)
      && (f.dateTo.Some? ==> row.date <= f.dateTo.value)
      && (f.symbols != [] ==> row.symbol in f.symbols)
  {
    var a, b, c := DateBound(AtLeast, f.dateFrom), DateBound(AtMost, f.dateTo), Narrow(Symbol, f.symbols);
    AllHoldConcat(row, [], a);
    AllHoldConcat(row, [] + a, b);
    AllHoldConcat(row, [] + a + b, c);
    AllHoldOne(row, a);
    AllHoldOne(row, b);
    AllHoldOne(row, c);
    assert AllHold(row, a) <==> (f.dateFrom.Some? ==> f.dateFrom.value <= row.date);
    assert AllHold(row, b) <==> (f.dateTo.Some? ==> row.date <= f.dateTo.value);
    assert AllHold(row, c) <==> (f.symbols != [] ==> row.symbol in f.symbols);
  }

  lemma LiteralsMean(row: EventRow, params: seq<Value>)
    ensures (forall i :: 0 <= i < |SCOPE_LITERALS| ==> ClauseTruth(row, SCOPE_LITERALS[i], params).True?) <==>
      row.hour == Some("amc") && row.liquidityExcludedAt.None? && row.supersededAt.None?
  {
    assert ClauseTruth(row, SCOPE_LITERALS[0], params).True? <==> row.hour == Some("amc");
    assert ClauseTruth(row, SCOPE_LITERALS[1], params).True? <==> row.liquidityExcludedAt.None?;
    assert ClauseTruth(row, SCOPE_LITERALS[2], params).True? <==> row.supersededAt.None?;
  }

  lemma ConjunctionConcat(row: EventRow, a: seq<Clause>, b: seq<Clause>, params: seq<Value>)
    ensures Conjunction(row, a + b, params).True?
            <==> Conjunction(row, a, params).True? && Conjunction(row, b, params).True?
  {
    ConjunctionTrue(row, a, params);
    ConjunctionTrue(row, b, params);
    ConjunctionTrue(row, a + b, params);
    assert forall i :: 0 <= i < |a| ==> (a + b)[i] == a[i];
    assert forall i :: 0 <= i < |b| ==> (a + b)[|a| + i] == b[i];
    assert forall i :: 0 <= i < |a + b| ==> (a + b)[i] == if i < |a| then a[i] else b[i - |a|];
  }

  lemma ScopeAgrees(row: EventRow, f: EventFilter, before: seq<Value>, after: seq<Value>)
    ensures
      Conjunction(row, SCOPE_LITERALS + Numbered(ScopeConditions(f), |before|),
                  before + Values(ScopeConditions(f)) + after).True?
      <==> InScope(row, f)
  {
    var params := before + Values(ScopeConditions(f)) + after;
    ConjunctionConcat(row, SCOPE_LITERALS, Numbered(ScopeConditions(f), |before|), params);
    ConjunctionTrue(row, SCOPE_LITERALS, params);
    LiteralsMean(row, params);
    PlaceholdersResolve(row, ScopeConditions(f), before, after);
    ScopeConditionsMean(row, f);
  }

  lemma StatementSelects(f: EventFilter, row: EventRow)
    ensures Selected(CohortStatement(f))(row) <==> Accepts(f)(row)
  {
    var first := VersionValues(f.versions);
    var second := first + Values(ScopeConditions(f));
    ScopeAgrees(row, f, first, Values(RefinementConditions(f)));
    RefinementAgrees(row, f, second, []);
    assert second + Values(RefinementConditions(f)) + [] == CohortStatement(f).params;
  }

  /** A built cohort statement fetches exactly the rows in scope with no exclusion reason. */
  lemma StatementMeaning(f: EventFilter, joined: Versions -> seq<EventRow>)
    ensures Run(CohortStatement(f), joined) == Filter(joined(f.versions), Accepts(f))
  {
    var s := CohortStatement(f);
    assert s.params[..3] == VersionValues(f.versions);
    assert JoinedVersions(s) == Some(f.versions) by {
      assert s.params[0] == s.params[..3][0] && s.params[1] == s.params[..3][1] && s.params[2] == s.params[..3][2];
    }
    var rows := joined(f.versions);
    forall i | 0 <= i < |rows| ensures Selected(s)(rows[i]) == Accepts(f)(rows[i]) {
      StatementSelects(f, rows[i]);
    }
    FilterSame(rows, Selected(s), Accepts(f));
  }

  // ------------------------------------------------------------------ universe and refinement

  function Unrefused(f: EventFilter): EventRow -> bool {
    (row: EventRow) => ExclusionReasons(row, f) == []
  }

  lemma UniverseRefusesNothing(row: EventRow, f: EventFilter, from: int, to: int)
    ensures ExclusionReasons(row, UniverseFilter(f, from, to)) == []
  {
    var u := UniverseFilter(f, from, to);
    NoListReason(ListChecks(row, u));
    NoPairReason(PairChecks(row, u));
  }

  /** Fetching the universe and then applying the row test gives the rows, in the same order,
      that the refined statement would have fetched itself. */
  lemma UniverseThenTest(f: EventFilter, from: int, to: int, joined: Versions -> seq<EventRow>)
    ensures
      Filter(Run(CohortStatement(UniverseFilter(f, from, to)), joined), Unrefused(SelectedFilter(f, from, to)))
      == Run(CohortStatement(SelectedFilter(f, from, to)), joined)
  {
    var u, g := UniverseFilter(f, from, to), SelectedFilter(f, from, to);
    StatementMeaning(u, joined);
    StatementMeaning(g, joined);
    var rows := joined(f.versions);
    forall i | 0 <= i < |rows| ensures Accepts(g)(rows[i]) <==> Accepts(u)(rows[i]) && Unrefused(g)(rows[i]) {
      UniverseRefusesNothing(rows[i], f, from, to);
    }
    FilterFilter(rows, Accepts(u), Unrefused(g), Accepts(g));
  }
}
