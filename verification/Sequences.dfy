/** Finite-sequence vocabulary shared by every component: filtering, mapping, sums,
    extrema, a stable sort, and the facts that make a result independent of the order
    in which its input rows arrived. */
module Sequences {
  datatype Option<+T> = None | Some(value: T)

  // ------------------------------------------------------------------ filtering

  function Filter<T>(s: seq<T>, p: T -> bool): seq<T> {
    if s == [] then []
    else if p(s[0]) then [s[0]] + Filter(s[1..], p)
    else Filter(s[1..], p)
  }

  lemma {:induction false} FilterMembers<T(!new)>(s: seq<T>, p: T -> bool)
    ensures |Filter(s, p)| <= |s|
    ensures forall x :: x in Filter(s, p) <==> x in s && p(x)
  {
    if s != [] {
      FilterMembers(s[1..], p);
      assert s == [s[0]] + s[1..];
    }
  }

  lemma {:induction false} FilterConcat<T(!new)>(a: seq<T>, b: seq<T>, p: T -> bool)
    ensures Filter(a + b, p) == Filter(a, p) + Filter(b, p)
  {
    if a == [] {
      assert a + b == b;
    } else {
      assert (a + b)[1..] == a[1..] + b;
      FilterConcat(a[1..], b, p);
    }
  }

  lemma {:induction false} FilterCount<T(!new)>(s: seq<T>, p: T -> bool, x: T)
    ensures multiset(Filter(s, p))[x] == if p(x) then multiset(s)[x] else 0
  {
    if s != [] {
      FilterCount(s[1..], p, x);
      assert s == [s[0]] + s[1..];
    }
  }

  /** A filter sees only the multiset of its input. */
  lemma FilterPermutation<T(!new)>(a: seq<T>, b: seq<T>, p: T -> bool)
    requires multiset(a) == multiset(b)
    ensures multiset(Filter(a, p)) == multiset(Filter(b, p))
    ensures |Filter(a, p)| == |Filter(b, p)|
  {
    forall x ensures multiset(Filter(a, p))[x] == multiset(Filter(b, p))[x] {
      FilterCount(a, p, x);
      FilterCount(b, p, x);
    }
    assert multiset(Filter(a, p)) == multiset(Filter(b, p));
    assert |multiset(Filter(a, p))| == |Filter(a, p)|;
    assert |multiset(Filter(b, p))| == |Filter(b, p)|;
  }

  /** When one test implies another and both keep equally many rows, they keep the same rows. */
  lemma {:induction false} FilterSameSize<T(!new)>(s: seq<T>, p: T -> bool, q: T -> bool)
    requires forall x :: x in s && p(x) ==> q(x)
    ensures |Filter(s, p)| <= |Filter(s, q)|
    ensures |Filter(s, p)| == |Filter(s, q)| ==> Filter(s, p) == Filter(s, q)
  {
    if s != [] {
      assert forall x :: x in s[1..] ==> x in s;
      FilterSameSize(s[1..], p, q);
    }
  }

  lemma {:induction false} FilterSame<T>(s: seq<T>, p: T -> bool, q: T -> bool)
    requires forall i :: 0 <= i < |s| ==> p(s[i]) == q(s[i])
    ensures Filter(s, p) == Filter(s, q)
  {
    if s != [] {
      FilterSame(s[1..], p, q);
    }
  }

  lemma {:induction false} FilterFilter<T>(s: seq<T>, p: T -> bool, q: T -> bool, both: T -> bool)
    requires forall i :: 0 <= i < |s| ==> (both(s[i]) <==> p(s[i]) && q(s[i]))
    ensures Filter(Filter(s, p), q) == Filter(s, both)
  {
    if s != [] {
      FilterFilter(s[1..], p, q, both);
      if p(s[0]) {
        assert ([s[0]] + Filter(s[1..], p))[1..] == Filter(s[1..], p);
      }
    }
  }

  lemma {:induction false} FilterNothing<T>(s: seq<T>, p: T -> bool)
    requires forall i :: 0 <= i < |s| ==> !p(s[i])
    ensures Filter(s, p) == []
  {
    if s != [] {
      FilterNothing(s[1..], p);
    }
  }

  /** Filtering keeps relative order: two kept rows at i < j came from positions a < b. */
  lemma {:induction false} FilterOrder<T(!new)>(s: seq<T>, p: T -> bool, i: nat, j: nat) returns (a: nat, b: nat)
    requires i < j < |Filter(s, p)|
    ensures && a < b < |s|
            && s[a] == Filter(s, p)[i]
            && s[b] == Filter(s, p)[j]
  {
    FilterMembers(s[1..], p);
    if p(s[0]) {
      if i == 0 {
        a := 0;
        assert Filter(s[1..], p)[j - 1] in s[1..];
        var k :| 0 <= k < |s[1..]| && s[1..][k] == Filter(s[1..], p)[j - 1];
        b := k + 1;
      } else {
        a, b := FilterOrder(s[1..], p, i - 1, j - 1);
        a, b := a + 1, b + 1;
      }
    } else {
      a, b := FilterOrder(s[1..], p, i, j);
      a, b := a + 1, b + 1;
    }
  }

  // ------------------------------------------------------------------ text

  predicate Sha256Hex(text: string) {
    |text| == 64 && forall i :: 0 <= i < 64 ==> '0' <= text[i] <= '9' || 'a' <= text[i] <= 'f'
  }

  function Repeated(c: char, n: nat): (text: string)
    ensures |text| == n && forall i :: 0 <= i < n ==> text[i] == c
  {
    if n == 0 then "" else [c] + Repeated(c, n - 1)
  }

  /** Some well-formed digest. */
  const HASH: string := Repeated('a', 64)

  // ------------------------------------------------------------------ mapping

  function Map<S, T>(s: seq<S>, f: S -> T): (r: seq<T>)
    ensures |r| == |s|
  {
    if s == [] then [] else [f(s[0])] + Map(s[1..], f)
  }

  lemma {:induction false} MapAt<S, T>(s: seq<S>, f: S -> T)
    ensures forall i :: 0 <= i < |s| ==> Map(s, f)[i] == f(s[i])
  {
    if s != [] {
      MapAt(s[1..], f);
    }
  }

  lemma {:induction false} MapConcat<S, T>(a: seq<S>, b: seq<S>, f: S -> T)
    ensures Map(a + b, f) == Map(a, f) + Map(b, f)
  {
    if a == [] {
      assert a + b == b;
    } else {
      assert (a + b)[1..] == a[1..] + b;
      MapConcat(a[1..], b, f);
    }
  }

  lemma {:induction false} MapSame<S, T>(s: seq<S>, f: S -> T, g: S -> T)
    requires forall i :: 0 <= i < |s| ==> f(s[i]) == g(s[i])
    ensures Map(s, f) == Map(s, g)
  {
    if s != [] {
      MapSame(s[1..], f, g);
    }
  }

  lemma MapNext<S, T>(s: seq<S>, f: S -> T, i: nat)
    requires i < |s|
    ensures Map(s[..i + 1], f) == Map(s[..i], f) + [f(s[i])]
  {
    MapConcat(s[..i], [s[i]], f);
    assert s[..i + 1] == s[..i] + [s[i]];
  }

  lemma FilterNext<T(!new)>(s: seq<T>, p: T -> bool, i: nat)
    requires i < |s|
    ensures Filter(s[..i + 1], p) == Filter(s[..i], p) + if p(s[i]) then [s[i]] else []
  {
    FilterConcat(s[..i], [s[i]], p);
    assert s[..i + 1] == s[..i] + [s[i]];
  }

  lemma FilterMapNext<S(!new), T>(s: seq<S>, p: S -> bool, f: S -> T, i: nat)
    requires i < |s|
    ensures Map(Filter(s[..i + 1], p), f) == Map(Filter(s[..i], p), f) + if p(s[i]) then [f(s[i])] else []
  {
    FilterNext(s, p, i);
    if p(s[i]) {
      MapConcat(Filter(s[..i], p), [s[i]], f);
    } else {
      assert Filter(s[..i], p) + [] == Filter(s[..i], p);
    }
  }

  /** The element that a kept image comes from. */
  lemma FilterMapSource<S, T(!new)>(s: seq<S>, f: S -> T, p: T -> bool, k: nat) returns (i: nat)
    requires k < |Filter(Map(s, f), p)|
    ensures i < |s| && Filter(Map(s, f), p)[k] == f(s[i]) && p(f(s[i]))
  {
    var images, kept := Map(s, f), Filter(Map(s, f), p);
    MapAt(s, f);
    FilterMembers(images, p);
    assert kept[k] in kept;
    i :| 0 <= i < |images| && images[i] == kept[k];
  }

  lemma MapWithout<S, T>(s: seq<S>, f: S -> T, i: nat)
    requires i < |s|
    ensures Map(Without(s, i), f) == Without(Map(s, f), i)
    ensures Map(s, f)[i] == f(s[i])
  {
    MapAt(s, f);
    MapAt(Without(s, i), f);
    var rest, mapped := Without(s, i), Without(Map(s, f), i);
    forall k | 0 <= k < |rest| ensures Map(rest, f)[k] == mapped[k] {
      var from := if k < i then k else k + 1;
      assert rest[k] == s[from] && mapped[k] == Map(s, f)[from];
    }
  }

  lemma {:induction false} MapPermutation<S, T>(a: seq<S>, b: seq<S>, f: S -> T)
    requires multiset(a) == multiset(b)
    ensures multiset(Map(a, f)) == multiset(Map(b, f))
    decreases |a|
  {
    if a == [] {
      assert |multiset(b)| == |b|;
    } else {
      var i := Occurrence(b, a[0], a);
      TailMatches(a, b, i);
      MapPermutation(a[1..], Without(b, i), f);
      MapWithout(b, f, i);
      WithoutContents(Map(b, f), i);
      assert Map(a, f) == [f(a[0])] + Map(a[1..], f);
    }
  }

  // ------------------------------------------------------------------ removing one element

  function Without<T>(s: seq<T>, i: nat): (r: seq<T>)
    requires i < |s|
    ensures |r| == |s| - 1
  {
    s[..i] + s[i + 1..]
  }

  lemma Occurrence<T>(b: seq<T>, x: T, a: seq<T>) returns (i: nat)
    requires multiset(a) == multiset(b) && x in a
    ensures i < |b| && b[i] == x
  {
    assert x in multiset(a);
    assert x in multiset(b);
    i :| i < |b| && b[i] == x;
  }

  lemma WithoutContents<T>(s: seq<T>, i: nat)
    requires i < |s|
    ensures multiset(s) == multiset{s[i]} + multiset(Without(s, i))
  {
    assert s == s[..i] + [s[i]] + s[i + 1..];
  }

  lemma TailMatches<T>(a: seq<T>, b: seq<T>, i: nat)
    requires multiset(a) == multiset(b) && a != [] && i < |b| && b[i] == a[0]
    ensures multiset(a[1..]) == multiset(Without(b, i))
  {
    assert a == [a[0]] + a[1..];
    assert multiset(a) == multiset{a[0]} + multiset(a[1..]);
    WithoutContents(b, i);
    assert multiset(a[1..]) == multiset(a) - multiset{a[0]};
    assert multiset(Without(b, i)) == multiset(b) - multiset{b[i]};
  }

  // ------------------------------------------------------------------ sums and extrema

  function Sum(s: seq<real>): real {
    if s == [] then 0.0 else s[0] + Sum(s[1..])
  }

  lemma {:induction false} SumWithout(s: seq<real>, i: nat)
    requires i < |s|
    ensures Sum(s) == s[i] + Sum(Without(s, i))
  {
    if i == 0 {
      assert Without(s, 0) == s[1..];
    } else {
      SumWithout(s[1..], i - 1);
      assert Without(s, i) == [s[0]] + Without(s[1..], i - 1);
    }
  }

  lemma {:induction false} SumPermutation(a: seq<real>, b: seq<real>)
    requires multiset(a) == multiset(b)
    ensures Sum(a) == Sum(b) && |a| == |b|
    decreases |a|
  {
    assert |multiset(a)| == |a| && |multiset(b)| == |b|;
    if a != [] {
      var i := Occurrence(b, a[0], a);
      TailMatches(a, b, i);
      SumPermutation(a[1..], Without(b, i));
      SumWithout(b, i);
    }
  }

  function Abs(x: real): (r: real)
    ensures r >= 0.0 && (r == x || r == -x)
  {
    if x < 0.0 then -x else x
  }

  function Max2(a: real, b: real): (r: real)
    ensures r >= a && r >= b && (r == a || r == b)
  {
    if a < b then b else a
  }

  function Min2(a: real, b: real): (r: real)
    ensures r <= a && r <= b && (r == a || r == b)
  {
    if b < a then b else a
  }

  function MaxOf(s: seq<real>): real
    requires s != []
  {
    if |s| == 1 then s[0] else Max2(s[0], MaxOf(s[1..]))
  }

  function MinOf(s: seq<real>): real
    requires s != []
  {
    if |s| == 1 then s[0] else Min2(s[0], MinOf(s[1..]))
  }

  lemma {:induction false} MaxOfGreatest(s: seq<real>)
    requires s != []
    ensures && MaxOf(s) in s
            && forall i :: 0 <= i < |s| ==> s[i] <= MaxOf(s)
  {
    if |s| > 1 {
      MaxOfGreatest(s[1..]);
      assert s == [s[0]] + s[1..];
    }
  }

  lemma {:induction false} MinOfLeast(s: seq<real>)
    requires s != []
    ensures && MinOf(s) in s
            && forall i :: 0 <= i < |s| ==> MinOf(s) <= s[i]
  {
    if |s| > 1 {
      MinOfLeast(s[1..]);
      assert s == [s[0]] + s[1..];
    }
  }

  lemma {:induction false} MaxOfAppend(s: seq<real>, x: real)
    ensures MaxOf(s + [x]) == if s == [] then x else Max2(MaxOf(s), x)
  {
    if s != [] {
      MaxOfAppend(s[1..], x);
      assert (s + [x])[1..] == s[1..] + [x];
    }
  }

  lemma {:induction false} MinOfAppend(s: seq<real>, x: real)
    ensures MinOf(s + [x]) == if s == [] then x else Min2(MinOf(s), x)
  {
    if s != [] {
      MinOfAppend(s[1..], x);
      assert (s + [x])[1..] == s[1..] + [x];
    }
  }

  // ------------------------------------------------------------------ stable sort

  ghost predicate TotalPreorder<T(!new)>(le: (T, T) -> bool) {
    && (forall x, y :: le(x, y) || le(y, x))
    && (forall x, y, z :: le(x, y) && le(y, z) ==> le(x, z))
  }

  ghost predicate SortedBy<T>(s: seq<T>, le: (T, T) -> bool) {
    forall i, j :: 0 <= i < j < |s| ==> le(s[i], s[j])
  }

  /** No two different elements of `s` tie under `le`. */
  ghost predicate NoTies<T>(s: seq<T>, le: (T, T) -> bool) {
    forall x, y :: x in s && y in s && le(x, y) && le(y, x) ==> x == y
  }

  function Insert<T>(x: T, s: seq<T>, le: (T, T) -> bool): seq<T> {
    if s == [] then [x]
    else if le(x, s[0]) then [x] + s
    else [s[0]] + Insert(x, s[1..], le)
  }

  /** Stable ascending sort. */
  function SortBy<T>(s: seq<T>, le: (T, T) -> bool): seq<T> {
    if s == [] then [] else Insert(s[0], SortBy(s[1..], le), le)
  }

  lemma {:induction false} InsertContents<T>(x: T, s: seq<T>, le: (T, T) -> bool)
    ensures multiset(Insert(x, s, le)) == multiset{x} + multiset(s)
  {
    if s != [] {
      assert s == [s[0]] + s[1..];
      if !le(x, s[0]) {
        InsertContents(x, s[1..], le);
      }
    }
  }

  lemma {:induction false} InsertSorted<T(!new)>(x: T, s: seq<T>, le: (T, T) -> bool)
    requires TotalPreorder(le) && SortedBy(s, le)
    ensures SortedBy(Insert(x, s, le), le)
  {
    if s != [] && !le(x, s[0]) {
      InsertSorted(x, s[1..], le);
      InsertContents(x, s[1..], le);
      var t := Insert(x, s[1..], le);
      forall j | 0 <= j < |t| ensures le(s[0], t[j]) {
        assert t[j] in multiset(t);
        assert t[j] == x || t[j] in s[1..];
      }
    }
  }

  /** Two elements that do not tie may be inserted in either order. */
  lemma {:induction false} InsertCommutes<T(!new)>(x: T, y: T, s: seq<T>, le: (T, T) -> bool)
    requires TotalPreorder(le) && !(le(x, y) && le(y, x))
    ensures Insert(x, Insert(y, s, le), le) == Insert(y, Insert(x, s, le), le)
  {
    if s != [] {
      InsertCommutes(x, y, s[1..], le);
    }
  }

  /** Moving an element to the front changes nothing when it overtakes no element it ties with. */
  lemma {:induction false} SortFront<T(!new)>(s: seq<T>, i: nat, le: (T, T) -> bool)
    requires TotalPreorder(le) && i < |s|
    requires forall j :: 0 <= j < i ==> !(le(s[j], s[i]) && le(s[i], s[j]))
    ensures SortBy([s[i]] + Without(s, i), le) == SortBy(s, le)
  {
    if i == 0 {
      assert [s[0]] + Without(s, 0) == s;
    } else {
      SortFront(s[1..], i - 1, le);
      var rest := Without(s[1..], i - 1);
      assert Without(s, i) == [s[0]] + rest;
      assert ([s[i]] + rest)[1..] == rest && ([s[0]] + rest)[1..] == rest
             && ([s[i]] + Without(s, i))[1..] == Without(s, i);
      InsertCommutes(s[0], s[i], SortBy(rest, le), le);
    }
  }

  lemma {:induction false} SortContents<T>(s: seq<T>, le: (T, T) -> bool)
    ensures multiset(SortBy(s, le)) == multiset(s)
    ensures |SortBy(s, le)| == |s|
    ensures forall x :: x in SortBy(s, le) <==> x in s
  {
    if s != [] {
      SortContents(s[1..], le);
      InsertContents(s[0], SortBy(s[1..], le), le);
      assert s == [s[0]] + s[1..];
    }
    SameContents(s, SortBy(s, le));
  }

  lemma SameContents<T>(a: seq<T>, b: seq<T>)
    requires multiset(a) == multiset(b)
    ensures |a| == |b|
    ensures forall x :: x in a <==> x in b
  {
    assert |multiset(a)| == |a| && |multiset(b)| == |b|;
    forall x ensures x in a <==> x in b {
      assert x in a <==> x in multiset(a);
      assert x in b <==> x in multiset(b);
    }
  }

  lemma {:induction false} SortSorted<T(!new)>(s: seq<T>, le: (T, T) -> bool)
    requires TotalPreorder(le)
    ensures SortedBy(SortBy(s, le), le)
  {
    if s != [] {
      SortSorted(s[1..], le);
      InsertSorted(s[0], SortBy(s[1..], le), le);
    }
  }

  lemma SameHead<T>(a: seq<T>, b: seq<T>, le: (T, T) -> bool)
    requires SortedBy(a, le) && SortedBy(b, le) && NoTies(a, le)
    requires multiset(a) == multiset(b) && a != [] && b != []
    ensures a[0] == b[0]
  {
    SameContents(a, b);
    assert a[0] in a && b[0] in b;
    var i :| 0 <= i < |b| && b[i] == a[0];
    var j :| 0 <= j < |a| && a[j] == b[0];
    assert i == 0 || le(b[0], b[i]);
    assert j == 0 || le(a[0], a[j]);
  }

  /** A tie-free collection has exactly one sorted arrangement. */
  lemma {:induction false} SortedUnique<T>(a: seq<T>, b: seq<T>, le: (T, T) -> bool)
    requires SortedBy(a, le) && SortedBy(b, le) && NoTies(a, le)
    requires multiset(a) == multiset(b)
    ensures a == b
    decreases |a|
  {
    assert |multiset(a)| == |a| && |multiset(b)| == |b|;
    if a != [] {
      SameHead(a, b, le);
      TailMatches(a, b, 0);
      assert Without(b, 0) == b[1..];
      SortedUnique(a[1..], b[1..], le);
    }
  }

  /** Without ties, sorting forgets the input order. */
  lemma SortPermutation<T(!new)>(a: seq<T>, b: seq<T>, le: (T, T) -> bool)
    requires TotalPreorder(le) && NoTies(a, le)
    requires multiset(a) == multiset(b)
    ensures SortBy(a, le) == SortBy(b, le)
  {
    SortContents(a, le);
    SortContents(b, le);
    SortSorted(a, le);
    SortSorted(b, le);
    SortedUnique(SortBy(a, le), SortBy(b, le), le);
  }

  // ------------------------------------------------------------------ text order

  /** Lexicographic order on text, by character code. */
  predicate TextLe(a: string, b: string) {
    a == [] || (b != [] && (a[0] < b[0] || (a[0] == b[0] && TextLe(a[1..], b[1..]))))
  }

  lemma {:induction false} TextLeTotal(a: string, b: string)
    ensures TextLe(a, b) || TextLe(b, a)
    ensures TextLe(a, b) && TextLe(b, a) ==> a == b
  {
    if a != [] && b != [] && a[0] == b[0] {
      TextLeTotal(a[1..], b[1..]);
      assert a == [a[0]] + a[1..] && b == [b[0]] + b[1..];
    }
  }

  lemma {:induction false} TextLeTransitive(a: string, b: string, c: string)
    requires TextLe(a, b) && TextLe(b, c)
    ensures TextLe(a, c)
  {
    if a != [] && a[0] == b[0] && b[0] == c[0] {
      TextLeTransitive(a[1..], b[1..], c[1..]);
    }
  }

  /** Sorting and removing repeats: the canonical form of a collection of texts. */
  function Distinct(s: seq<string>): (r: seq<string>)
    ensures forall x :: x in r <==> x in s
    ensures forall i, j :: 0 <= i < j < |r| ==> r[i] != r[j]
  {
    if s == [] then []
    else if s[0] in s[1..] then Distinct(s[1..])
    else [s[0]] + Distinct(s[1..])
  }

  function SortedSet(s: seq<string>): seq<string> {
    SortBy(Distinct(s), TextLe)
  }

  lemma TextOrder(s: seq<string>)
    ensures TotalPreorder(TextLe) && NoTies(s, TextLe)
  {
    forall x, y ensures (TextLe(x, y) || TextLe(y, x)) && (TextLe(x, y) && TextLe(y, x) ==> x == y) {
      TextLeTotal(x, y);
    }
    forall x, y, z | TextLe(x, y) && TextLe(y, z) ensures TextLe(x, z) {
      TextLeTransitive(x, y, z);
    }
  }

  /** The canonical form is determined by membership, and determines it. */
  lemma SortedSetCanonical(a: seq<string>, b: seq<string>)
    ensures SortedSet(a) == SortedSet(b) <==> (forall x :: x in a <==> x in b)
  {
    SortedSetContents(a);
    SortedSetContents(b);
    if forall x :: x in a <==> x in b {
      SortedSetUnique(a, b);
    }
  }

  lemma SortedSetContents(a: seq<string>)
    ensures forall x :: x in SortedSet(a) <==> x in a
  {
    SortContents(Distinct(a), TextLe);
  }

  lemma SortedSetUnique(a: seq<string>, b: seq<string>)
    requires forall x :: x in a <==> x in b
    ensures SortedSet(a) == SortedSet(b)
  {
    assert multiset(Distinct(a)) == multiset(Distinct(b)) by {
      CountDistinct(Distinct(a));
      CountDistinct(Distinct(b));
    }
    TextOrder(Distinct(a));
    SortPermutation(Distinct(a), Distinct(b), TextLe);
  }

  lemma {:induction false} CountDistinct<T>(s: seq<T>)
    requires forall i, j :: 0 <= i < j < |s| ==> s[i] != s[j]
    ensures forall x :: multiset(s)[x] == if x in s then 1 else 0
  {
    if s != [] {
      CountDistinct(s[1..]);
      assert s == [s[0]] + s[1..];
    }
  }
}
