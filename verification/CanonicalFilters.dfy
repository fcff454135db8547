/** The canonical record of a filter decides the filter's meaning, and nothing else decides it. */
module CanonicalFilters {
  import opened Sequences
  import opened Filters
  import opened FilterLaws

  // ------------------------------------------------------------------ canonical record

  predicate SameTexts(a: seq<string>, b: seq<string>) {
    && (forall x :: x in a ==> x in b)
    && (forall x :: x in b ==> x in a)
  }

  predicate SameLists(f: EventFilter, g: EventFilter) {
    && SameTexts(f.symbols, g.symbols) && SameTexts(f.statuses, g.statuses) && SameTexts(f.classes, g.classes)
    && SameTexts(f.directions, g.directions) && SameTexts(f.modes, g.modes)
  }

  /** Everything that is neither a list nor presentation state. */
  predicate SameScalars(f: EventFilter, g: EventFilter) {
    var bare := (h: EventFilter) => h.(symbols := [], statuses := [], classes := [], directions := [], modes := [],
                                       orderBy := "", limit := None, offset := 0);
    bare(f) == bare(g)
  }

  lemma SortedSetSame(a: seq<string>, b: seq<string>)
    ensures SortedSet(a) == SortedSet(b) <==> SameTexts(a, b)
  {
    SortedSetCanonical(a, b);
  }

  /** Two filters share a canonical record, and so a digest, exactly when they differ at most
      in presentation and in the order and repetition of their lists. */
  lemma CanonicalExactly(f: EventFilter, g: EventFilter)
    ensures CanonicalRecord(f) == CanonicalRecord(g) <==> SameLists(f, g) && SameScalars(f, g)
  {
    SortedSetSame(f.symbols, g.symbols);
    SortedSetSame(f.statuses, g.statuses);
    SortedSetSame(f.classes, g.classes);
    SortedSetSame(f.directions, g.directions);
    SortedSetSame(f.modes, g.modes);
  }

  lemma {:induction false} ListReasonsSame(a: seq<ListCheck>, b: seq<ListCheck>)
    requires |a| == |b| && forall i :: 0 <= i < |a| ==> a[i].code == b[i].code && (ListFails(a[i]) <==> ListFails(b[i]))
    ensures ListReasons(a) == ListReasons(b)
  {
    if a != [] {
      ListReasonsSame(a[..|a| - 1], b[..|b| - 1]);
    }
  }

  lemma ListFailsSame(allowed: seq<string>, other: seq<string>, value: Option<string>, code: Code)
    requires SameTexts(allowed, other)
    ensures ListFails(ListCheck(allowed, value, code)) <==> ListFails(ListCheck(other, value, code))
  {
    SameEmpty(allowed, other);
  }

  /** A canonical record decides the whole study meaning: the universe and every reason. */
  lemma CanonicalDecides(f: EventFilter, g: EventFilter, row: EventRow)
    requires CanonicalRecord(f) == CanonicalRecord(g)
    ensures ExclusionReasons(row, f) == ExclusionReasons(row, g)
    ensures InScope(row, f) <==> InScope(row, g)
  {
    CanonicalExactly(f, g);
    SameListReasons(f, g, row);
    assert PairChecks(row, f) == PairChecks(row, g);
    SameEmpty(f.symbols, g.symbols);
  }

  lemma SameEmpty(a: seq<string>, b: seq<string>)
    requires SameTexts(a, b)
    ensures a == [] <==> b == []
  {
    assert a != [] ==> a[0] in b;
    assert b != [] ==> b[0] in a;
  }

  lemma SameListReasons(f: EventFilter, g: EventFilter, row: EventRow)
    requires SameLists(f, g)
    ensures ListReasons(ListChecks(row, f)) == ListReasons(ListChecks(row, g))
  {
    ListFailsSame(f.statuses, g.statuses, row.status, StatusExcluded);
    ListFailsSame(f.classes, g.classes, row.reactionClass, ClassExcluded);
    ListFailsSame(f.directions, g.directions, row.direction, DirectionExcluded);
    ListFailsSame(f.modes, g.modes, row.mode, ModeExcluded);
    ListReasonsSame(ListChecks(row, f), ListChecks(row, g));
  }
}
