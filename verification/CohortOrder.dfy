/** A stored study result forgets the order of the rows it was computed from. */
module CohortOrder {
  import opened Sequences
  import opened Filters
  import opened Cohort

  ghost predicate DistinctEvents(universe: seq<EventRow>) {
    forall a, b :: a in universe && b in universe && EventKey(a) == EventKey(b) ==> a == b
  }

  lemma MemberOrder(c: Context, universe: seq<EventRow>)
    requires DistinctEvents(universe)
    ensures && TotalPreorder(MemberLe)
            && NoTies(Map(universe, MemberOf(c)), MemberLe)
  {
    forall x: Member, y: Member
      ensures && (MemberLe(x, y) || MemberLe(y, x))
              && (MemberLe(x, y) && MemberLe(y, x) ==> x.symbol == y.symbol && x.date == y.date)
    {
      TextLeTotal(x.symbol, y.symbol);
    }
    forall x: Member, y: Member, z: Member | MemberLe(x, y) && MemberLe(y, z) ensures MemberLe(x, z) {
      if x.date == y.date == z.date {
        TextLeTransitive(x.symbol, y.symbol, z.symbol);
      }
    }
    OneMemberAKey(c, universe);
  }

  lemma OneMemberAKey(c: Context, universe: seq<EventRow>)
    requires DistinctEvents(universe)
    ensures var members := Map(universe, MemberOf(c));
            forall x, y :: x in members && y in members && x.symbol == y.symbol && x.date == y.date ==> x == y
  {
    assert forall e :: (MemberOf(c)(e).symbol, MemberOf(c)(e).date) == EventKey(e);
    OneImageAKey(universe, MemberOf(c));
  }

  lemma OneImageAKey(universe: seq<EventRow>, f: EventRow -> Member)
    requires DistinctEvents(universe) && forall e :: (f(e).symbol, f(e).date) == EventKey(e)
    ensures forall x, y ::
              x in Map(universe, f) && y in Map(universe, f) && x.symbol == y.symbol && x.date == y.date ==> x == y
  {
    var members := Map(universe, f);
    MapAt(universe, f);
    forall x, y | x in members && y in members && x.symbol == y.symbol && x.date == y.date ensures x == y {
      var i :| 0 <= i < |members| && members[i] == x;
      var j :| 0 <= j < |members| && members[j] == y;
      assert EventKey(universe[i]) == EventKey(universe[j]);
      assert universe[i] == universe[j];
    }
  }

  lemma {:induction false} TallyWithout(members: seq<Member>, i: nat)
    requires i < |members|
    ensures Tally(members) == Tally(Without(members, i)) + multiset(members[i].reasons)
  {
    var n := |members| - 1;
    var rest := Without(members, i);
    if i == n {
      assert rest == members[..n];
    } else {
      TallyWithout(members[..n], i);
      assert rest[..n - 1] == Without(members[..n], i);
      assert rest[n - 1] == members[n];
    }
  }

  lemma {:induction false} TallyPermutation(a: seq<Member>, b: seq<Member>)
    requires multiset(a) == multiset(b)
    ensures Tally(a) == Tally(b)
    decreases |a|
  {
    assert |multiset(a)| == |a| && |multiset(b)| == |b|;
    if a != [] {
      var i := Occurrence(b, a[0], a);
      TailMatches(a, b, i);
      TallyPermutation(a[1..], Without(b, i));
      TallyWithout(b, i);
      TallyWithout(a, 0);
      assert Without(a, 0) == a[1..];
    }
  }

  lemma SplitPermutation(c: Context, a: seq<EventRow>, b: seq<EventRow>, threshold: real)
    requires multiset(a) == multiset(b)
    ensures SplitAt(c, a, threshold) == SplitAt(c, b, threshold)
  {
    SidePermutation(c, a, b, IsEarly(threshold));
    SidePermutation(c, a, b, IsLate(threshold));
  }

  lemma SidePermutation(c: Context, a: seq<EventRow>, b: seq<EventRow>, side: EventRow -> bool)
    requires multiset(a) == multiset(b)
    ensures Mean(Map(Filter(a, side), ReturnOf(c))) == Mean(Map(Filter(b, side), ReturnOf(c)))
    ensures |Filter(a, side)| == |Filter(b, side)|
  {
    FilterPermutation(a, b, side);
    MapPermutation(Filter(a, side), Filter(b, side), ReturnOf(c));
    SumPermutation(Map(Filter(a, side), ReturnOf(c)), Map(Filter(b, side), ReturnOf(c)));
  }

  lemma MedianPermutation(a: seq<int>, b: seq<int>)
    requires multiset(a) == multiset(b) && a != [] && b != []
    ensures Median(a) == Median(b)
  {
    assert TotalPreorder(IntLe) && NoTies(a, IntLe);
    SortPermutation(a, b, IntLe);
  }

  lemma RulePermutation(stage: Stage, a: seq<EventRow>, b: seq<EventRow>, frozen: Option<Rule>)
    requires multiset(a) == multiset(b)
    ensures RuleFor(stage, a, frozen) == RuleFor(stage, b, frozen)
  {
    SameContents(a, b);
    if a != [] {
      MapPermutation(a, b, DelayOf);
      MedianPermutation(Map(a, DelayOf), Map(b, DelayOf));
    }
  }

  lemma AssemblePermutation(spec: Spec, stage: Stage, a: seq<Member>, b: seq<Member>, included: nat, eligible: nat,
                            split: Split, rule: Rule)
    requires multiset(a) == multiset(b) && included <= |a| && included <= |b|
    requires TotalPreorder(MemberLe) && NoTies(a, MemberLe)
    ensures Assemble(spec, stage, a, included, eligible, split, rule)
            == Assemble(spec, stage, b, included, eligible, split, rule)
  {
    SameContents(a, b);
    SortPermutation(a, b, MemberLe);
    TallyPermutation(a, b);
    FilterPermutation(a, b, HasOutcomeStatus(COMPLETE));
    FilterPermutation(a, b, HasOutcomeStatus(INSUFFICIENT));
  }

  lemma UniversePermutation(c: Context, stage: Stage, a: seq<EventRow>, b: seq<EventRow>, frozen: Option<Rule>)
    requires multiset(a) == multiset(b) && DistinctEvents(a)
    requires |Usable(c, a)| <= |a| && |Usable(c, b)| <= |b|
    ensures StageResult(c, stage, a, Usable(c, a), frozen) == StageResult(c, stage, b, Usable(c, b), frozen)
  {
    var ua, ub := Usable(c, a), Usable(c, b);
    FilterPermutation(a, b, IsUsable(c));
    FilterPermutation(a, b, IsEligible(c.selected));
    RulePermutation(stage, ua, ub, frozen);
    MapPermutation(a, b, MemberOf(c));
    MemberOrder(c, a);
    if ua != [] && RuleFor(stage, ua, frozen).Some? {
      var rule := RuleFor(stage, ua, frozen).value;
      SplitPermutation(c, ua, ub, rule.threshold);
      AssemblePermutation(c.spec, stage, Map(a, MemberOf(c)), Map(b, MemberOf(c)), |ua|,
                          |Filter(a, IsEligible(c.selected))|,
                          SplitAt(c, ua, rule.threshold), rule);
    }
  }

  /** The stored result depends only on which rows were read, never on their order. */
  lemma ResultForgetsOrder(spec: Spec, stage: Stage, a: seq<EventRow>, b: seq<EventRow>, oa: seq<OutcomeRow>,
                           ob: seq<OutcomeRow>, frozen: Option<Rule>)
    requires multiset(a) == multiset(b) && DistinctEvents(a)
    requires multiset(oa) == multiset(ob) && DistinctDigests(oa)
    ensures Materialize(spec, stage, a, oa, frozen) == Materialize(spec, stage, b, ob, frozen)
  {
    ChosenPermutation(oa, ob);
    var c := ContextOf(spec, stage, oa);
    FilterMembers(a, IsUsable(c));
    FilterMembers(b, IsUsable(c));
    UniversePermutation(c, stage, a, b, frozen);
  }
}
