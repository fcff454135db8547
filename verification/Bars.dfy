/** One-minute price bars, the sort-and-deduplicate step both engines start from, and
    what it means for a bar to be well formed. Times are whole seconds on one clock. */
module Bars {
  import opened Sequences

  const MINUTE: int := 60

  datatype Bar = Bar(ts: int, open: real, high: real, low: real, close: real, volume: Option<int>)

  predicate TsLe(a: Bar, b: Bar) {
    a.ts <= b.ts
  }

  ghost predicate Ascending(s: seq<Bar>) {
    forall i, j :: 0 <= i < j < |s| ==> s[i].ts < s[j].ts
  }

  ghost predicate DistinctTimes(s: seq<Bar>) {
    forall i, j :: 0 <= i < j < |s| ==> s[i].ts != s[j].ts
  }

  function PctChange(before: real, after: real): real
    requires before != 0.0
  {
    (after - before) / before * 100.0
  }

  lemma PctChangeMonotone(before: real, a: real, b: real)
    requires before > 0.0 && a <= b
    ensures PctChange(before, a) <= PctChange(before, b)
  {
    assert (a - before) / before <= (b - before) / before;
  }

  /** The first bar stamped `t`, in the order given. */
  function At(s: seq<Bar>, t: int): (r: Option<Bar>)
    ensures r.Some? ==> r.value in s && r.value.ts == t
    ensures r.None? ==> forall b :: b in s ==> b.ts != t
  {
    if s == [] then None
    else if s[0].ts == t then Some(s[0])
    else At(s[1..], t)
  }

  /** Entries a dictionary keeps when each time is only ever set once. */
  function KeepFirst(s: seq<Bar>, seen: set<int>): seq<Bar> {
    if s == [] then []
    else if s[0].ts in seen then KeepFirst(s[1..], seen)
    else [s[0]] + KeepFirst(s[1..], seen + {s[0].ts})
  }

  /** Sorted by time, one bar a time. */
  function Deduplicated(bars: seq<Bar>): seq<Bar> {
    KeepFirst(SortBy(bars, TsLe), {})
  }

  method Deduplicate(bars: seq<Bar>) returns (kept: seq<Bar>)
    ensures kept == Deduplicated(bars)
  {
    var ordered := SortBy(bars, TsLe);
    var seen: set<int> := {};
    kept := [];
    for i := 0 to |ordered|
      invariant kept + KeepFirst(ordered[i..], seen) == Deduplicated(bars)
    {
      assert ordered[i..][1..] == ordered[i + 1..];
      if ordered[i].ts !in seen {
        kept := kept + [ordered[i]];
        seen := seen + {ordered[i].ts};
      }
    }
  }

  lemma {:induction false} KeepFirstContents(s: seq<Bar>, seen: set<int>)
    ensures forall b :: b in KeepFirst(s, seen) ==> b in s && b.ts !in seen
    ensures |KeepFirst(s, seen)| <= |s|
  {
    if s != [] {
      KeepFirstContents(s[1..], seen);
      KeepFirstContents(s[1..], seen + {s[0].ts});
    }
  }

  lemma {:induction false} KeepFirstAt(s: seq<Bar>, seen: set<int>, t: int)
    requires t !in seen
    ensures At(KeepFirst(s, seen), t) == At(s, t)
  {
    if s != [] {
      if s[0].ts in seen {
        KeepFirstAt(s[1..], seen, t);
      } else if s[0].ts != t {
        KeepFirstAt(s[1..], seen + {s[0].ts}, t);
      }
    }
  }

  lemma {:induction false} KeepFirstAscending(s: seq<Bar>, seen: set<int>)
    requires SortedBy(s, TsLe)
    ensures Ascending(KeepFirst(s, seen))
  {
    if s != [] {
      assert SortedBy(s[1..], TsLe);
      if s[0].ts in seen {
        KeepFirstAscending(s[1..], seen);
      } else {
        var rest := KeepFirst(s[1..], seen + {s[0].ts});
        KeepFirstAscending(s[1..], seen + {s[0].ts});
        KeepFirstContents(s[1..], seen + {s[0].ts});
        forall j | 0 <= j < |rest| ensures s[0].ts < rest[j].ts {
          assert rest[j] in s[1..];
          assert TsLe(s[0], rest[j]);
        }
      }
    }
  }

  /** No two bars share a time, and no bar has a time already seen. */
  ghost predicate AllNew(s: seq<Bar>, seen: set<int>) {
    DistinctTimes(s) && forall b :: b in s ==> b.ts !in seen
  }

  lemma AllNewNext(s: seq<Bar>, seen: set<int>)
    requires s != [] && s[0].ts !in seen
    ensures AllNew(s, seen) <==> AllNew(s[1..], seen + {s[0].ts})
  {
    var rest := s[1..];
    assert forall b :: b in s <==> b == s[0] || b in rest;
    if AllNew(s, seen) {
      forall i | 0 <= i < |rest| ensures rest[i].ts != s[0].ts {
        assert s[i + 1] == rest[i];
      }
    }
    if AllNew(rest, seen + {s[0].ts}) {
      forall i, j | 0 <= i < j < |s| ensures s[i].ts != s[j].ts {
        assert s[j] == rest[j - 1] && rest[j - 1] in rest;
        assert i > 0 ==> s[i] == rest[i - 1];
      }
    }
  }

  lemma {:induction false} KeepFirstAll(s: seq<Bar>, seen: set<int>)
    ensures AllNew(s, seen) ==> KeepFirst(s, seen) == s
    ensures |KeepFirst(s, seen)| == |s| ==> AllNew(s, seen)
  {
    if s != [] {
      KeepFirstContents(s[1..], seen);
      if s[0].ts !in seen {
        KeepFirstAll(s[1..], seen + {s[0].ts});
        AllNewNext(s, seen);
      }
    }
  }

  lemma {:induction false} InsertAt(x: Bar, s: seq<Bar>, t: int)
    ensures At(Insert(x, s, TsLe), t) == if x.ts == t then Some(x) else At(s, t)
  {
    if s != [] && !TsLe(x, s[0]) {
      InsertAt(x, s[1..], t);
    }
  }

  /** Sorting is stable: the first bar of each time stays first. */
  lemma {:induction false} SortAt(s: seq<Bar>, t: int)
    ensures At(SortBy(s, TsLe), t) == At(s, t)
  {
    if s != [] {
      SortAt(s[1..], t);
      InsertAt(s[0], SortBy(s[1..], TsLe), t);
    }
  }

  /** A duplicated time keeps the first bar supplied for it, and no time is lost. */
  lemma DeduplicatedAt(bars: seq<Bar>, t: int)
    ensures At(Deduplicated(bars), t) == At(bars, t)
  {
    SortAt(bars, t);
    KeepFirstAt(SortBy(bars, TsLe), {}, t);
  }

  lemma DeduplicatedAscending(bars: seq<Bar>)
    ensures Ascending(Deduplicated(bars))
    ensures forall b :: b in Deduplicated(bars) ==> b in bars
    ensures forall b :: b in bars ==> exists k :: k in Deduplicated(bars) && k.ts == b.ts
  {
    SortContents(bars, TsLe);
    SortSorted(bars, TsLe);
    KeepFirstAscending(SortBy(bars, TsLe), {});
    KeepFirstContents(SortBy(bars, TsLe), {});
    forall b | b in bars ensures exists k :: k in Deduplicated(bars) && k.ts == b.ts {
      DeduplicatedAt(bars, b.ts);
      var found := At(bars, b.ts);
      assert found.value in Deduplicated(bars);
    }
  }

  lemma DistinctTimesContents(a: seq<Bar>, b: seq<Bar>)
    requires multiset(a) == multiset(b) && DistinctTimes(a)
    ensures DistinctTimes(b)
  {
    forall i, j | 0 <= i < j < |b| ensures b[i].ts != b[j].ts {
      if b[i].ts == b[j].ts {
        SameContents(a, b);
        assert b[i] in a && b[j] in a;
        assert b[i] == b[j];
        assert b == b[..i] + [b[i]] + b[i + 1..j] + [b[j]] + b[j + 1..];
        assert multiset(b)[b[i]] >= 2;
        CountDistinct(a);
        assert false;
      }
    }
  }

  /** Nothing was dropped exactly when no two bars share a time; then the result is the
      plain sort and forgets the order the bars arrived in. */
  lemma DeduplicatedLossless(bars: seq<Bar>)
    ensures |Deduplicated(bars)| == |bars| <==> DistinctTimes(bars)
    ensures DistinctTimes(bars) ==> multiset(Deduplicated(bars)) == multiset(bars)
  {
    var ordered := SortBy(bars, TsLe);
    SortContents(bars, TsLe);
    KeepFirstAll(ordered, {});
    if DistinctTimes(bars) {
      DistinctTimesContents(bars, ordered);
    }
    if DistinctTimes(ordered) {
      DistinctTimesContents(ordered, bars);
    }
  }

  lemma AscendingUnique(a: seq<Bar>, b: seq<Bar>)
    requires Ascending(a) && Ascending(b)
    requires forall x :: x in a <==> x in b
    ensures a == b
  {
    CountDistinct(a);
    CountDistinct(b);
    assert multiset(a) == multiset(b);
    assert NoTies(a, TsLe);
    SortedUnique(a, b, TsLe);
  }

  lemma DeduplicatedPermutation(a: seq<Bar>, b: seq<Bar>)
    requires multiset(a) == multiset(b) && DistinctTimes(a)
    ensures Deduplicated(a) == Deduplicated(b)
  {
    assert NoTies(a, TsLe);
    SortPermutation(a, b, TsLe);
  }

  // ------------------------------------------------------------------ well-formed bars

  /** Positive prices, with open and close inside the low-high range. */
  predicate SoundPrices(b: Bar) {
    && 0.0 < b.low <= b.open <= b.high
    && b.low <= b.close <= b.high
  }
}
