/** What the parser answers for any query, told in the values given under each key and the
    texts they hold. */
module QueryAnswers {
  import opened Sequences
  import opened Filters
  import opened Query
  import QueryLaws

  // ------------------------------------------------------------------ what the parser refuses

  /** The keys whose values are checked, in the order the parser reads them. */
  const READ_ORDER: seq<Key> :=
    [DateFromKey, DateToKey, MinMove, MaxMove, MinRetention, MaxRetention, MinDelay, MaxDelay, MinVolume, MinCoverage,
     MinEpsSurprise, MaxEpsSurprise, LimitKey, PageKey]

  /** The value that counts among those given: the last one, unless it is a blank text. */
  predicate Counts(tokens: seq<Token>, t: Token) {
    tokens != [] && tokens[|tokens| - 1] == t && (t.Plain? ==> Trim(t.text) != "")
  }

  /** The value a query gives a key. */
  predicate Gives(pairs: Pairs, k: Key, t: Token) {
    Counts(Given(pairs)(k), t)
  }

  /** No date where one is due, no number, no whole number, a limit outside 1 to 1000, a page below 1. */
  predicate Malformed(k: Key, t: Token) {
    match k
    case DateFromKey => !t.Day?
    case DateToKey => !t.Day?
    case MinDelay => !t.Whole?
    case MaxDelay => !t.Whole?
    case MinVolume => !t.Whole?
    case LimitKey => !(t.Whole? && 1 <= t.whole <= 1000)
    case PageKey => !(t.Whole? && t.whole >= 1)
    case _ => !t.Decimal? && !t.Whole?
  }

  ghost predicate Refused(pairs: Pairs, k: Key) {
    exists t :: Gives(pairs, k, t) && Malformed(k, t)
  }

  lemma RefusedTokens(k: Key, tokens: seq<Token>)
    ensures !Parses(k, Scalar(tokens)) <==> exists t :: Counts(tokens, t) && Malformed(k, t)
  {
    if tokens != [] {
      var t := tokens[|tokens| - 1];
      assert Counts(tokens, t) <==> (t.Plain? ==> Trim(t.text) != "");
    }
  }

  lemma RefusedMeaning(pairs: Pairs, k: Key)
    ensures !Parses(k, Scalar(Given(pairs)(k))) <==> Refused(pairs, k)
  {
    var tokens := Given(pairs)(k);
    RefusedTokens(k, tokens);
    forall t ensures Counts(tokens, t) <==> Gives(pairs, k, t) {
    }
  }

  lemma {:induction false} FirstRefusedFound(given: Reader, keys: seq<Key>)
    ensures FirstRefused(given, keys).None? ==> forall i :: 0 <= i < |keys| ==> Parses(keys[i], Scalar(given(keys[i])))
    ensures FirstRefused(given, keys).Some? ==>
              exists i :: RefusedFirstAt(given, keys, i) && keys[i] == FirstRefused(given, keys).value
  {
    if keys != [] {
      var n := |keys| - 1;
      FirstRefusedFound(given, keys[..n]);
      if FirstRefused(given, keys[..n]).Some? {
        var i :| RefusedFirstAt(given, keys[..n], i) && keys[..n][i] == FirstRefused(given, keys[..n]).value;
        assert RefusedFirstAt(given, keys, i);
      } else if FirstRefused(given, keys).Some? {
        assert forall i :: 0 <= i < n ==> keys[..n][i] == keys[i];
        assert RefusedFirstAt(given, keys, n);
      }
    }
  }

  ghost predicate RefusedFirstAt(given: Reader, keys: seq<Key>, i: int) {
    && 0 <= i < |keys| && !Parses(keys[i], Scalar(given(keys[i])))
    && forall j :: 0 <= j < i ==> Parses(keys[j], Scalar(given(keys[j])))
  }

  ghost predicate FirstRefusal(pairs: Pairs, i: int) {
    0 <= i < |READ_ORDER| && Refused(pairs, READ_ORDER[i]) && forall j :: 0 <= j < i ==> !Refused(pairs, READ_ORDER[j])
  }

  /** The parser names the first key, in reading order, that is given a malformed value, and no
      key when there is none. */
  lemma RefusalExactly(pairs: Pairs)
    ensures Parse(pairs).BadValue? <==> exists i :: FirstRefusal(pairs, i)
    ensures forall i :: FirstRefusal(pairs, i) ==> Parse(pairs) == BadValue(READ_ORDER[i])
  {
    var refused := FirstRefused(Given(pairs), CHECKED);
    FirstRefusedFound(Given(pairs), CHECKED);
    if refused.None? {
      NoRefusal(pairs);
    } else {
      var n :| RefusedFirstAt(Given(pairs), CHECKED, n) && CHECKED[n] == refused.value;
      RefusalPlace(pairs, n);
    }
  }

  lemma RefusalPlace(pairs: Pairs, n: int)
    requires RefusedFirstAt(Given(pairs), CHECKED, n)
    ensures n < |READ_ORDER| && CHECKED[n] == READ_ORDER[n]
    ensures FirstRefusal(pairs, n) && forall i :: FirstRefusal(pairs, i) ==> i == n
  {
    assert CHECKED == READ_ORDER;
    forall k ensures !Parses(k, Scalar(Given(pairs)(k))) <==> Refused(pairs, k) {
      RefusedMeaning(pairs, k);
    }
  }

  lemma NoRefusal(pairs: Pairs)
    requires forall i :: 0 <= i < |CHECKED| ==> Parses(CHECKED[i], Scalar(Given(pairs)(CHECKED[i])))
    ensures forall i :: !FirstRefusal(pairs, i)
  {
    assert CHECKED == READ_ORDER;
    forall i | 0 <= i < |READ_ORDER| ensures !Refused(pairs, READ_ORDER[i]) {
      RefusedMeaning(pairs, READ_ORDER[i]);
    }
  }

  // ------------------------------------------------------------------ what the parser reads

  predicate IsNumber(t: Token, x: real) {
    t == Decimal(x) || (t.Whole? && t.whole as real == x)
  }

  /** No value counts among those given. */
  ghost predicate Absent(tokens: seq<Token>) {
    forall t :: !Counts(tokens, t)
  }

  /** The number given, whole or not. */
  ghost predicate NumberRead(x: Option<real>, tokens: seq<Token>) {
    && (x.None? <==> Absent(tokens))
    && (x.Some? ==> exists t :: Counts(tokens, t) && IsNumber(t, x.value))
  }

  ghost predicate WholeRead(x: Option<int>, tokens: seq<Token>) {
    (x.None? <==> Absent(tokens)) && (x.Some? ==> Counts(tokens, Whole(x.value)))
  }

  ghost predicate DayRead(x: Option<int>, tokens: seq<Token>) {
    (x.None? <==> Absent(tokens)) && (x.Some? ==> Counts(tokens, Day(x.value)))
  }

  ghost predicate MovesRead(f: EventFilter, given: Reader) {
    && DayRead(f.dateFrom, given(DateFromKey)) && DayRead(f.dateTo, given(DateToKey))
    && NumberRead(f.minAbsInitial, given(MinMove)) && NumberRead(f.maxAbsInitial, given(MaxMove))
    && NumberRead(f.minRetention, given(MinRetention)) && NumberRead(f.maxRetention, given(MaxRetention))
  }

  ghost predicate RatiosRead(f: EventFilter, given: Reader) {
    && WholeRead(f.minDelay, given(MinDelay)) && WholeRead(f.maxDelay, given(MaxDelay))
    && WholeRead(f.minVolume, given(MinVolume)) && NumberRead(f.minCoverage, given(MinCoverage))
    && NumberRead(f.minEpsSurprise, given(MinEpsSurprise)) && NumberRead(f.maxEpsSurprise, given(MaxEpsSurprise))
  }

  /** Every bound of a parsed filter is the value given under its own key. */
  ghost predicate BoundsRead(f: EventFilter, given: Reader) {
    MovesRead(f, given) && RatiosRead(f, given)
  }

  ghost predicate LimitRead(limit: int, tokens: seq<Token>) {
    1 <= limit <= 1000 && (Counts(tokens, Whole(limit)) || (limit == 100 && Absent(tokens)))
  }

  ghost predicate PageRead(page: int, tokens: seq<Token>) {
    page >= 1 && (Counts(tokens, Whole(page)) || (page == 1 && Absent(tokens)))
  }

  /** The limit is the one given or 100, and the offset is where the page given, or the first, starts. */
  ghost predicate PagingRead(f: EventFilter, given: Reader) {
    && f.limit.Some? && LimitRead(f.limit.value, given(LimitKey))
    && exists page :: PageRead(page, given(PageKey)) && f.offset == (page - 1) * f.limit.value
  }

  lemma ScalarCounts(tokens: seq<Token>, t: Option<Token>)
    requires t == Scalar(tokens)
    ensures t.None? <==> Absent(tokens)
    ensures t.Some? && !t.value.Plain? ==> Counts(tokens, t.value)
  {
    if tokens != [] {
      var x := tokens[|tokens| - 1];
      assert Counts(tokens, x) <==> (x.Plain? ==> Trim(x.text) != "");
    }
  }

  lemma NumberGiven(k: Key, tokens: seq<Token>)
    requires Parses(k, Scalar(tokens))
    requires k in {MinMove, MaxMove, MinRetention, MaxRetention, MinCoverage, MinEpsSurprise, MaxEpsSurprise}
    ensures NumberRead(RealIn(Scalar(tokens)), tokens)
  {
    ScalarCounts(tokens, Scalar(tokens));
  }

  lemma WholeGiven(k: Key, tokens: seq<Token>)
    requires Parses(k, Scalar(tokens)) && k in {MinDelay, MaxDelay, MinVolume}
    ensures WholeRead(IntIn(Scalar(tokens)), tokens)
  {
    ScalarCounts(tokens, Scalar(tokens));
  }

  lemma DayGiven(k: Key, tokens: seq<Token>)
    requires Parses(k, Scalar(tokens)) && k in {DateFromKey, DateToKey}
    ensures DayRead(DateIn(Scalar(tokens)), tokens)
  {
    ScalarCounts(tokens, Scalar(tokens));
  }

  /** The place of a checked key in the parser's order, and 14 for any other. */
  function CheckedPlace(k: Key): nat {
    match k
    case DateFromKey => 0
    case DateToKey => 1
    case MinMove => 2
    case MaxMove => 3
    case MinRetention => 4
    case MaxRetention => 5
    case MinDelay => 6
    case MaxDelay => 7
    case MinVolume => 8
    case MinCoverage => 9
    case MinEpsSurprise => 10
    case MaxEpsSurprise => 11
    case LimitKey => 12
    case PageKey => 13
    case _ => 14
  }

  ghost predicate NothingRefused(given: Reader) {
    forall k :: CheckedPlace(k) < 14 ==> Parses(k, Scalar(given(k)))
  }

  lemma PlaceIsChecked(k: Key)
    requires CheckedPlace(k) < 14
    ensures |CHECKED| == 14 && CHECKED[CheckedPlace(k)] == k
  {
  }

  lemma NothingRefusedFound(given: Reader)
    requires FirstRefused(given, CHECKED).None?
    ensures NothingRefused(given)
  {
    FirstRefusedFound(given, CHECKED);
    forall k | CheckedPlace(k) < 14 ensures Parses(k, Scalar(given(k))) {
      PlaceIsChecked(k);
    }
  }

  lemma DaysAndMoves(given: Reader, f: EventFilter)
    requires NothingRefused(given) && f == FieldsIn(given)
    ensures MovesRead(f, given)
  {
    DayGiven(DateFromKey, given(DateFromKey));
    DayGiven(DateToKey, given(DateToKey));
    NumberGiven(MinMove, given(MinMove));
    NumberGiven(MaxMove, given(MaxMove));
    NumberGiven(MinRetention, given(MinRetention));
    NumberGiven(MaxRetention, given(MaxRetention));
  }

  lemma WholesAndRatios(given: Reader, f: EventFilter)
    requires NothingRefused(given) && f == FieldsIn(given)
    ensures RatiosRead(f, given)
  {
    WholeGiven(MinDelay, given(MinDelay));
    WholeGiven(MaxDelay, given(MaxDelay));
    WholeGiven(MinVolume, given(MinVolume));
    NumberGiven(MinCoverage, given(MinCoverage));
    NumberGiven(MinEpsSurprise, given(MinEpsSurprise));
    NumberGiven(MaxEpsSurprise, given(MaxEpsSurprise));
  }

  lemma LimitGiven(given: Reader)
    requires NothingRefused(given)
    ensures LimitRead(LimitIn(given), given(LimitKey))
  {
    assert Parses(LimitKey, Scalar(given(LimitKey)));
    ScalarCounts(given(LimitKey), Scalar(given(LimitKey)));
  }

  lemma PageGiven(given: Reader)
    requires NothingRefused(given)
    ensures PageRead(PageIn(given), given(PageKey))
  {
    assert Parses(PageKey, Scalar(given(PageKey)));
    ScalarCounts(given(PageKey), Scalar(given(PageKey)));
  }

  lemma PagingFields(given: Reader, f: EventFilter, limit: int, page: int)
    requires f == FieldsIn(given) && limit == LimitIn(given) && page == PageIn(given)
    ensures f.limit == Some(limit) && f.offset == (page - 1) * limit
  {
  }

  lemma PagingGiven(given: Reader, f: EventFilter, limit: int, page: int)
    requires LimitRead(limit, given(LimitKey)) && PageRead(page, given(PageKey))
    requires f.limit == Some(limit) && f.offset == (page - 1) * limit
    ensures PagingRead(f, given)
  {
  }

  lemma PagingOf(given: Reader, f: EventFilter)
    requires NothingRefused(given) && f == FieldsIn(given)
    ensures PagingRead(f, given)
  {
    var limit, page := LimitIn(given), PageIn(given);
    LimitGiven(given);
    PageGiven(given);
    PagingFields(given, f, limit, page);
    PagingGiven(given, f, limit, page);
  }

  /** Building normalises the lists and keeps everything else. */
  lemma BuiltFrom(given: Reader, fields: EventFilter) returns (f: EventFilter)
    requires fields == FieldsIn(given) && ParseFrom(given).Ok?
    ensures ParseFrom(given) == Ok(f) && FirstRefused(given, CHECKED).None?
    ensures f == fields.(symbols := NormalizeAll(fields.symbols), statuses := KeepDistinct(fields.statuses),
                         classes := KeepDistinct(fields.classes), directions := KeepDistinct(fields.directions),
                         modes := KeepDistinct(fields.modes))
  {
    f := ParseFrom(given).filter;
  }

  lemma SameBounds(f: EventFilter, fields: EventFilter, given: Reader)
    requires f == fields.(symbols := f.symbols, statuses := f.statuses, classes := f.classes,
                          directions := f.directions, modes := f.modes)
    requires BoundsRead(fields, given) && PagingRead(fields, given)
    ensures BoundsRead(f, given) && PagingRead(f, given)
  {
  }

  /** A parsed filter holds, under every bound, what the query gives for it, and pages as it says. */
  lemma ParsedFields(pairs: Pairs) returns (f: EventFilter)
    requires Parse(pairs).Ok?
    ensures Parse(pairs) == Ok(f) && BoundsRead(f, Given(pairs)) && PagingRead(f, Given(pairs))
  {
    var fields := FieldsIn(Given(pairs));
    f := BuiltFrom(Given(pairs), fields);
    NothingRefusedFound(Given(pairs));
    DaysAndMoves(Given(pairs), fields);
    WholesAndRatios(Given(pairs), fields);
    PagingOf(Given(pairs), fields);
    SameBounds(f, fields, Given(pairs));
  }

  // ------------------------------------------------------------------ texts

  /** The characters that trimming drops, by code. */
  predicate Blank(c: char) {
    c as int in {9, 10, 11, 12, 13, 28, 29, 30, 31, 32, 133, 160}
  }

  predicate AllBlank(s: string) {
    forall i :: 0 <= i < |s| ==> Blank(s[i])
  }

  ghost predicate Cut(s: string, i: int, j: int, x: string) {
    && 0 <= i <= j <= |s| && x == s[i..j] && AllBlank(s[..i]) && AllBlank(s[j..])
    && (x != "" ==> !Blank(x[0]) && !Blank(x[|x| - 1]))
  }

  /** `x` is `s` without the blanks around it. */
  ghost predicate IsTrimmed(s: string, x: string) {
    exists i, j :: Cut(s, i, j, x)
  }

  lemma SpaceIsBlank(c: char)
    ensures IsSpace(c) <==> Blank(c)
  {
  }

  lemma {:induction false} LeftCut(s: string) returns (i: nat)
    ensures i <= |s| && TrimLeft(s) == s[i..] && AllBlank(s[..i]) && (i < |s| ==> !Blank(s[i]))
  {
    i := 0;
    if s != "" {
      SpaceIsBlank(s[0]);
      if IsSpace(s[0]) {
        var k := LeftCut(s[1..]);
        i := k + 1;
        assert forall k :: 1 <= k < i ==> s[k] == s[1..][k - 1];
      }
    }
  }

  lemma {:induction false} RightCut(s: string) returns (j: nat)
    ensures j <= |s| && TrimRight(s) == s[..j] && AllBlank(s[j..]) && (j > 0 ==> !Blank(s[j - 1]))
  {
    j := |s|;
    if s != "" {
      SpaceIsBlank(s[|s| - 1]);
      if IsSpace(s[|s| - 1]) {
        j := RightCut(s[..|s| - 1]);
        assert forall k :: j <= k < |s| - 1 ==> s[k] == s[..|s| - 1][j..][k - j];
      }
    }
  }

  lemma TrimCuts(s: string)
    ensures IsTrimmed(s, Trim(s))
  {
    var left := TrimLeft(s);
    var i := LeftCut(s);
    var j := RightCut(left);
    assert s[i..][..j] == s[i..i + j];
    assert s[i + j..] == left[j..];
    assert Cut(s, i, i + j, Trim(s));
  }

  lemma CutBlanks(s: string, i: int, j: int, x: string)
    requires Cut(s, i, j, x)
    ensures forall k :: 0 <= k < i ==> Blank(s[k])
    ensures forall k :: j <= k < |s| ==> Blank(s[k])
    ensures x != "" ==> !Blank(s[i]) && !Blank(s[j - 1])
  {
    assert forall k :: 0 <= k < i ==> s[k] == s[..i][k];
    assert forall k :: j <= k < |s| ==> s[k] == s[j..][k - j];
  }

  lemma CutOnce(s: string, i: int, j: int, x: string, m: int, n: int, y: string)
    requires Cut(s, i, j, x) && Cut(s, m, n, y) && x != ""
    ensures m <= i && j <= n
  {
    CutBlanks(s, i, j, x);
    CutBlanks(s, m, n, y);
  }

  lemma TrimMeaning(s: string, x: string)
    ensures x == Trim(s) <==> IsTrimmed(s, x)
  {
    TrimCuts(s);
    if IsTrimmed(s, x) {
      var i, j :| Cut(s, i, j, x);
      var m, n :| Cut(s, m, n, Trim(s));
      if x != "" {
        CutOnce(s, i, j, x, m, n, Trim(s));
      }
      if Trim(s) != "" {
        CutOnce(s, m, n, Trim(s), i, j, x);
      }
    }
  }

  // ------------------------------------------------------------------ lists

  /** A stretch of text between commas, or between a comma and an end. */
  predicate Piece(s: string, a: int, b: int) {
    && 0 <= a <= b <= |s| && (a == 0 || s[a - 1] == ',') && (b == |s| || s[b] == ',')
    && forall k :: a <= k < b ==> s[k] != ','
  }

  ghost predicate PartAt(s: string, a: int, b: int, x: string) {
    Piece(s, a, b) && IsTrimmed(s[a..b], x)
  }

  /** `x` is what trimming leaves of such a stretch, and is not empty. */
  ghost predicate IsPart(s: string, x: string) {
    x != "" && exists a, b :: PartAt(s, a, b, x)
  }

  lemma {:induction false} FirstPiece(s: string)
    ensures Piece(s, 0, FirstComma(s))
  {
    if s != "" && s[0] != ',' {
      FirstPiece(s[1..]);
      assert forall k :: 1 <= k < FirstComma(s) ==> s[k] == s[1..][k - 1];
    }
  }

  lemma PieceShift(s: string, i: nat, a: int, b: int, x: string)
    requires i < |s| && s[i] == ',' && PartAt(s[i + 1..], a, b, x)
    ensures PartAt(s, a + i + 1, b + i + 1, x)
  {
    var rest := s[i + 1..];
    assert forall k :: 0 <= k < |rest| ==> rest[k] == s[k + i + 1];
    assert rest[a..b] == s[a + i + 1..b + i + 1];
    assert forall k :: a + i + 1 <= k < b + i + 1 ==> s[k] == rest[k - i - 1];
  }

  lemma PieceBack(s: string, i: nat, a: int, b: int, x: string)
    requires i < a && i < |s| && PartAt(s, a, b, x)
    ensures PartAt(s[i + 1..], a - i - 1, b - i - 1, x)
  {
    var rest := s[i + 1..];
    assert forall k :: 0 <= k < |rest| ==> rest[k] == s[k + i + 1];
    assert rest[a - i - 1..b - i - 1] == s[a..b];
  }

  lemma FirstPart(s: string, x: string)
    requires x == Trim(s[..FirstComma(s)]) && x != ""
    ensures IsPart(s, x)
  {
    var i := FirstComma(s);
    FirstPiece(s);
    TrimMeaning(s[..i], x);
    assert s[0..i] == s[..i];
    assert PartAt(s, 0, i, x);
  }

  lemma PartsSplit(s: string, x: string, i: nat)
    requires x in Parts(s) && i == FirstComma(s)
    ensures (x == Trim(s[..i]) && x != "") || (i < |s| && x in Parts(s[i + 1..]))
  {
  }

  lemma {:induction false} PartsSound(s: string, x: string)
    requires x in Parts(s)
    ensures IsPart(s, x)
    decreases |s|
  {
    var i := FirstComma(s);
    PartsSplit(s, x, i);
    if x == Trim(s[..i]) && x != "" {
      FirstPart(s, x);
    } else {
      PartsSound(s[i + 1..], x);
      var a, b :| PartAt(s[i + 1..], a, b, x);
      PieceShift(s, i, a, b, x);
    }
  }

  lemma {:induction false} PartsComplete(s: string, x: string, a: int, b: int)
    requires PartAt(s, a, b, x) && x != ""
    ensures x in Parts(s)
    decreases |s|
  {
    var i := FirstComma(s);
    FirstPiece(s);
    if a == 0 {
      assert s[0..b] == s[..i];
      TrimMeaning(s[..i], x);
    } else {
      PieceBack(s, i, a, b, x);
      PartsComplete(s[i + 1..], x, a - i - 1, b - i - 1);
    }
  }

  lemma PartsMeaning(s: string, x: string)
    ensures x in Parts(s) <==> IsPart(s, x)
  {
    if x in Parts(s) {
      PartsSound(s, x);
    }
    if IsPart(s, x) {
      var a, b :| PartAt(s, a, b, x);
      PartsComplete(s, x, a, b);
    }
  }

  ghost predicate Holds(t: Token, x: string) {
    t.Plain? && IsPart(t.text, x)
  }

  /** Some value given holds `x` between its commas. */
  ghost predicate Lists(tokens: seq<Token>, x: string) {
    exists t :: t in tokens && Holds(t, x)
  }

  lemma HoldsMeaning(t: Token, x: string)
    ensures x in PartsOf(t) <==> Holds(t, x)
  {
    if t.Plain? {
      PartsMeaning(t.text, x);
    }
  }

  lemma {:induction false} AllPartsMeaning(tokens: seq<Token>, x: string)
    ensures x in AllParts(tokens) <==> Lists(tokens, x)
  {
    if tokens != [] {
      var front, t := tokens[..|tokens| - 1], tokens[|tokens| - 1];
      AllPartsMeaning(front, x);
      HoldsMeaning(t, x);
      assert tokens == front + [t];
    }
  }

  ghost predicate NoRepeats(values: seq<string>) {
    forall i, j :: 0 <= i < j < |values| ==> values[i] != values[j]
  }

  lemma {:induction false} DistinctContents(s: seq<string>)
    ensures NoRepeats(KeepDistinct(s)) && forall x :: x in KeepDistinct(s) <==> x in s
  {
    if s != [] {
      DistinctContents(s[..|s| - 1]);
      assert s == s[..|s| - 1] + [s[|s| - 1]];
    }
  }

  /** Exactly the texts listed, each once. */
  ghost predicate ListRead(values: seq<string>, tokens: seq<Token>) {
    NoRepeats(values) && forall x :: x in values <==> Lists(tokens, x)
  }

  lemma ListGiven(tokens: seq<Token>)
    ensures ListRead(ListOf(tokens), tokens) && ListRead(KeepDistinct(ListOf(tokens)), tokens)
  {
    DistinctContents(AllParts(tokens));
    DistinctContents(ListOf(tokens));
    forall x ensures x in ListOf(tokens) <==> Lists(tokens, x) {
      AllPartsMeaning(tokens, x);
    }
  }

  // ------------------------------------------------------------------ symbols

  /** `y` is `x` with its letters from a to z, codes 97 to 122, in upper case. */
  predicate InUpper(x: string, y: string) {
    |x| == |y| && forall i :: 0 <= i < |x| ==> y[i] as int == UpperCode(x[i] as int)
  }

  function UpperCode(code: int): int {
    if 97 <= code <= 122 then code - 32 else code
  }

  ghost predicate SymbolListed(tokens: seq<Token>, y: string) {
    exists x :: Lists(tokens, x) && InUpper(x, y)
  }

  /** Exactly the symbols listed, in upper case, each once. */
  ghost predicate SymbolsRead(values: seq<string>, tokens: seq<Token>) {
    NoRepeats(values) && forall y :: y in values <==> SymbolListed(tokens, y)
  }

  lemma UpperMeaning(x: string, y: string)
    ensures y == UpperText(x) <==> InUpper(x, y)
  {
    if InUpper(x, y) {
      assert forall i :: 0 <= i < |x| ==> y[i] == UpperText(x)[i];
    }
  }

  lemma PartTrimmed(s: string, x: string)
    requires IsPart(s, x)
    ensures Trim(x) == x
  {
    var a, b :| PartAt(s, a, b, x);
    TrimMeaning(s[a..b], x);
    QueryLaws.TrimTwice(s[a..b]);
  }

  lemma ListedTrimmed(tokens: seq<Token>, x: string)
    requires Lists(tokens, x)
    ensures NormalizeSymbol(x) == UpperText(x)
  {
    var t :| t in tokens && Holds(t, x);
    PartTrimmed(t.text, x);
  }

  lemma SymbolsGiven(tokens: seq<Token>)
    ensures SymbolsRead(NormalizeAll(ListOf(tokens)), tokens)
  {
    var listed := ListOf(tokens);
    var upper := Map(listed, NormalizeSymbol);
    ListGiven(tokens);
    DistinctContents(upper);
    MapAt(listed, NormalizeSymbol);
    forall y ensures y in upper <==> SymbolListed(tokens, y) {
      if y in upper {
        var i :| 0 <= i < |upper| && upper[i] == y;
        assert listed[i] in listed;
        ListedTrimmed(tokens, listed[i]);
        UpperMeaning(listed[i], y);
      }
      if SymbolListed(tokens, y) {
        var x :| Lists(tokens, x) && InUpper(x, y);
        ListedTrimmed(tokens, x);
        UpperMeaning(x, y);
        var i :| 0 <= i < |listed| && listed[i] == x;
        assert upper[i] == y;
      }
    }
  }

  /** One to ten letters, digits, dots and hyphens, a letter first. */
  predicate SymbolShape(x: string) {
    && 1 <= |x| <= 10 && IsLetter(x[0] as int)
    && forall i :: 0 <= i < |x| ==> IsLetter(x[i] as int) || 48 <= x[i] as int <= 57 || x[i] == '.' || x[i] == '-'
  }

  predicate IsLetter(code: int) {
    65 <= code <= 90 || 97 <= code <= 122
  }

  lemma ShapeMeaning(x: string)
    ensures IsSymbol(UpperText(x)) <==> SymbolShape(x)
  {
    var y := UpperText(x);
    assert forall i :: 0 <= i < |x| ==> y[i] == Upper(x[i]);
    if IsSymbol(y) {
      assert forall i :: 0 <= i < |x| ==>
          'A' <= y[i] <= 'Z' || '0' <= y[i] <= '9' || y[i] == '.' || y[i] == '-';
    }
  }

  lemma AllSymbolsMeaning(tokens: seq<Token>)
    ensures AllSymbols(ListOf(tokens)) <==> forall x :: Lists(tokens, x) ==> SymbolShape(x)
  {
    var listed := ListOf(tokens);
    ListGiven(tokens);
    forall x | Lists(tokens, x) ensures IsSymbol(NormalizeSymbol(x)) <==> SymbolShape(x) {
      ListedTrimmed(tokens, x);
      ShapeMeaning(x);
    }
    if AllSymbols(listed) {
      forall x | Lists(tokens, x) ensures SymbolShape(x) {
        var i :| 0 <= i < |listed| && listed[i] == x;
      }
    }
    if forall x :: Lists(tokens, x) ==> SymbolShape(x) {
      forall i | 0 <= i < |listed| ensures IsSymbol(NormalizeSymbol(listed[i])) {
        assert listed[i] in listed;
      }
    }
  }

  lemma AllKnownMeaning(tokens: seq<Token>, allowed: seq<string>)
    ensures AllKnown(ListOf(tokens), allowed) <==> forall x :: Lists(tokens, x) ==> x in allowed
  {
    var listed := ListOf(tokens);
    ListGiven(tokens);
    if AllKnown(listed, allowed) {
      forall x | Lists(tokens, x) ensures x in allowed {
        var i :| 0 <= i < |listed| && listed[i] == x;
      }
    }
    if forall x :: Lists(tokens, x) ==> x in allowed {
      forall i | 0 <= i < |listed| ensures listed[i] in allowed {
        assert listed[i] in listed;
      }
    }
  }

  // ------------------------------------------------------------------ what the parser finds invalid

  /** A number, or a day as its number. */
  function ValueOf(t: Token): real {
    match t
    case Decimal(x) => x
    case Whole(n) => n as real
    case Day(d) => d as real
    case Plain(_) => 0.0
  }

  /** A lower bound is given above the upper bound given. */
  ghost predicate Crossed(low: seq<Token>, high: seq<Token>) {
    exists a, b :: Counts(low, a) && Counts(high, b) && ValueOf(a) > ValueOf(b)
  }

  ghost predicate SomeCrossed(given: Reader) {
    || Crossed(given(DateFromKey), given(DateToKey))
    || Crossed(given(MinMove), given(MaxMove)) || Crossed(given(MinRetention), given(MaxRetention))
    || Crossed(given(MinDelay), given(MaxDelay)) || Crossed(given(MinEpsSurprise), given(MaxEpsSurprise))
  }

  ghost predicate NoRatio(tokens: seq<Token>) {
    exists t :: Counts(tokens, t) && !(0.0 <= ValueOf(t) <= 1.0)
  }

  ghost predicate NoOrder(tokens: seq<Token>) {
    exists t, x :: Counts(tokens, t) && t.Plain? && IsTrimmed(t.text, x) && x !in ORDERS
  }

  ghost predicate ListsOther(tokens: seq<Token>, allowed: seq<string>) {
    exists x :: Lists(tokens, x) && x !in allowed
  }

  ghost predicate SomeUnknown(given: Reader) {
    || (exists x :: Lists(given(SymbolKey), x) && !SymbolShape(x))
    || ListsOther(given(StatusKey), STATUSES) || ListsOther(given(ClassKey), CLASSES)
    || ListsOther(given(DirectionKey), DIRECTIONS) || ListsOther(given(ModeKey), MODES)
  }

  /** A crossed pair of bounds, a coverage that is no share, an unknown order, an unknown list
      value or a text that is no symbol. */
  ghost predicate Contradicts(given: Reader) {
    SomeCrossed(given) || NoRatio(given(MinCoverage)) || NoOrder(given(SortKey)) || SomeUnknown(given)
  }

  lemma NumbersCross(low: seq<Token>, high: seq<Token>)
    requires Parses(MinMove, Scalar(low)) && Parses(MaxMove, Scalar(high))
    ensures RealRange(RealIn(Scalar(low)), RealIn(Scalar(high))) <==> !Crossed(low, high)
  {
    LastCounts(low);
    LastCounts(high);
  }

  lemma WholesCross(low: seq<Token>, high: seq<Token>)
    requires Parses(MinDelay, Scalar(low)) && Parses(MaxDelay, Scalar(high))
    ensures IntRange(IntIn(Scalar(low)), IntIn(Scalar(high))) <==> !Crossed(low, high)
  {
    LastCounts(low);
    LastCounts(high);
  }

  lemma DaysCross(low: seq<Token>, high: seq<Token>)
    requires Parses(DateFromKey, Scalar(low)) && Parses(DateToKey, Scalar(high))
    ensures IntRange(DateIn(Scalar(low)), DateIn(Scalar(high))) <==> !Crossed(low, high)
  {
    LastCounts(low);
    LastCounts(high);
  }

  lemma LastCounts(tokens: seq<Token>)
    ensures Scalar(tokens).None? <==> Absent(tokens)
    ensures forall t :: Counts(tokens, t) && !t.Plain? ==> Scalar(tokens) == Some(t)
    ensures Scalar(tokens).Some? && !Scalar(tokens).value.Plain? ==> Counts(tokens, Scalar(tokens).value)
    ensures forall t :: Counts(tokens, t) && t.Plain? ==> Scalar(tokens) == Some(Plain(Trim(t.text)))
  {
    ScalarCounts(tokens, Scalar(tokens));
  }

  lemma DateRange(given: Reader, f: EventFilter)
    requires NothingRefused(given) && f == FieldsIn(given)
    ensures IntRange(f.dateFrom, f.dateTo) <==> !Crossed(given(DateFromKey), given(DateToKey))
  {
    DaysCross(given(DateFromKey), given(DateToKey));
  }

  lemma MoveRange(given: Reader, f: EventFilter)
    requires NothingRefused(given) && f == FieldsIn(given)
    ensures RealRange(f.minAbsInitial, f.maxAbsInitial) <==> !Crossed(given(MinMove), given(MaxMove))
  {
    NumbersCross(given(MinMove), given(MaxMove));
  }

  lemma RetentionRange(given: Reader, f: EventFilter)
    requires NothingRefused(given) && f == FieldsIn(given)
    ensures RealRange(f.minRetention, f.maxRetention) <==> !Crossed(given(MinRetention), given(MaxRetention))
  {
    assert Parses(MinRetention, Scalar(given(MinRetention))) && Parses(MaxRetention, Scalar(given(MaxRetention)));
    NumbersCross(given(MinRetention), given(MaxRetention));
  }

  lemma DelayRange(given: Reader, f: EventFilter)
    requires NothingRefused(given) && f == FieldsIn(given)
    ensures IntRange(f.minDelay, f.maxDelay) <==> !Crossed(given(MinDelay), given(MaxDelay))
  {
    WholesCross(given(MinDelay), given(MaxDelay));
  }

  lemma SurpriseRange(given: Reader, f: EventFilter)
    requires NothingRefused(given) && f == FieldsIn(given)
    ensures RealRange(f.minEpsSurprise, f.maxEpsSurprise) <==> !Crossed(given(MinEpsSurprise), given(MaxEpsSurprise))
  {
    assert Parses(MinEpsSurprise, Scalar(given(MinEpsSurprise)));
    assert Parses(MaxEpsSurprise, Scalar(given(MaxEpsSurprise)));
    NumbersCross(given(MinEpsSurprise), given(MaxEpsSurprise));
  }

  predicate RangesAllowed(f: EventFilter) {
    && IntRange(f.dateFrom, f.dateTo) && RealRange(f.minAbsInitial, f.maxAbsInitial)
    && RealRange(f.minRetention, f.maxRetention) && IntRange(f.minDelay, f.maxDelay)
    && RealRange(f.minEpsSurprise, f.maxEpsSurprise)
  }

  lemma RangesMeaning(given: Reader, f: EventFilter)
    requires NothingRefused(given) && f == FieldsIn(given)
    ensures SomeCrossed(given) <==> !RangesAllowed(f)
  {
    DateRange(given, f);
    MoveRange(given, f);
    RetentionRange(given, f);
    DelayRange(given, f);
    SurpriseRange(given, f);
  }

  lemma RatioMeaning(tokens: seq<Token>, x: Option<real>)
    requires Parses(MinCoverage, Scalar(tokens)) && x == RealIn(Scalar(tokens))
    ensures NoRatio(tokens) <==> x.Some? && !(0.0 <= x.value <= 1.0)
  {
    LastCounts(tokens);
  }

  lemma OrderMeaning(tokens: seq<Token>, order: string)
    requires order == TextIn(Scalar(tokens), "earnings_date_desc")
    ensures NoOrder(tokens) <==> order !in ORDERS
  {
    LastCounts(tokens);
    if Scalar(tokens).Some? && Scalar(tokens).value.Plain? {
      var t := tokens[|tokens| - 1];
      assert Counts(tokens, t);
      TrimMeaning(t.text, order);
    }
    if NoOrder(tokens) {
      var t, x :| Counts(tokens, t) && t.Plain? && IsTrimmed(t.text, x) && x !in ORDERS;
      TrimMeaning(t.text, x);
    }
  }

  lemma ListsMeaning(given: Reader, f: EventFilter)
    requires f == FieldsIn(given)
    ensures SomeUnknown(given) <==> !ListsAllowed(f)
  {
    AllSymbolsMeaning(given(SymbolKey));
    AllKnownMeaning(given(StatusKey), STATUSES);
    AllKnownMeaning(given(ClassKey), CLASSES);
    AllKnownMeaning(given(DirectionKey), DIRECTIONS);
    AllKnownMeaning(given(ModeKey), MODES);
  }

  lemma OffsetAllowed(limit: int, page: int)
    requires limit >= 1 && page >= 1
    ensures (page - 1) * limit >= 0
  {
  }

  /** What no query can break: the paging and the versions. */
  lemma PagingAllowed(given: Reader, f: EventFilter)
    requires NothingRefused(given) && f == FieldsIn(given)
    ensures f.limit.Some? && 1 <= f.limit.value <= MAX_LIMIT && f.offset >= 0
  {
    var limit, page := LimitIn(given), PageIn(given);
    LimitGiven(given);
    PageGiven(given);
    PagingFields(given, f, limit, page);
    OffsetAllowed(limit, page);
  }

  lemma VersionTextAllowed(tokens: seq<Token>, default: string)
    requires Trim(default) != ""
    ensures Trim(TextIn(Scalar(tokens), default)) != ""
  {
    if tokens != [] && tokens[|tokens| - 1].Plain? {
      QueryLaws.TrimTwice(tokens[|tokens| - 1].text);
    }
  }

  lemma VersionsGivenAllowed(given: Reader, f: EventFilter)
    requires f == FieldsIn(given)
    ensures VersionsAllowed(f.versions)
  {
    QueryLaws.DefaultsTrimmed();
    VersionTextAllowed(given(FeatureKey), DEFAULT_VERSIONS.feature);
    VersionTextAllowed(given(DetectorKey), DEFAULT_VERSIONS.detector);
    VersionTextAllowed(given(ClassifierKey), DEFAULT_VERSIONS.classifier);
  }

  lemma ScalarsMeaning(given: Reader, f: EventFilter)
    requires NothingRefused(given) && f == FieldsIn(given)
    ensures ScalarsAllowed(f) <==>
            !SomeCrossed(given) && !NoRatio(given(MinCoverage)) && !NoOrder(given(SortKey))
  {
    RangesMeaning(given, f);
    PagingAllowed(given, f);
    assert Parses(MinCoverage, Scalar(given(MinCoverage)));
    RatioMeaning(given(MinCoverage), f.minCoverage);
    OrderMeaning(given(SortKey), f.orderBy);
  }

  lemma ConstructMeaning(given: Reader, f: EventFilter)
    requires NothingRefused(given) && f == FieldsIn(given)
    ensures Construct(f).None? <==> Contradicts(given)
  {
    ScalarsMeaning(given, f);
    ListsMeaning(given, f);
    VersionsGivenAllowed(given, f);
  }

  /** A query without a malformed value is refused exactly when its bounds, order, list values or
      symbols contradict what a filter may hold. */
  lemma InvalidExactly(pairs: Pairs)
    ensures Parse(pairs).Invalid? <==> !Parse(pairs).BadValue? && Contradicts(Given(pairs))
  {
    if FirstRefused(Given(pairs), CHECKED).None? {
      NothingRefusedFound(Given(pairs));
      ConstructMeaning(Given(pairs), FieldsIn(Given(pairs)));
    }
  }

  // ------------------------------------------------------------------ lists and texts of a parsed filter

  /** The text given, trimmed, or the default when none is. */
  ghost predicate TextRead(x: string, default: string, tokens: seq<Token>) {
    || (exists t :: Counts(tokens, t) && t.Plain? && IsTrimmed(t.text, x))
    || (x == default && forall t :: Counts(tokens, t) ==> !t.Plain?)
  }

  lemma TextGiven(tokens: seq<Token>, default: string)
    ensures TextRead(TextIn(Scalar(tokens), default), default, tokens)
  {
    LastCounts(tokens);
    if Scalar(tokens).Some? && Scalar(tokens).value.Plain? {
      var t := tokens[|tokens| - 1];
      assert Counts(tokens, t);
      TrimMeaning(t.text, Trim(t.text));
    }
  }

  ghost predicate ListsRead(f: EventFilter, given: Reader) {
    && SymbolsRead(f.symbols, given(SymbolKey))
    && ListRead(f.statuses, given(StatusKey)) && ListRead(f.classes, given(ClassKey))
    && ListRead(f.directions, given(DirectionKey)) && ListRead(f.modes, given(ModeKey))
  }

  ghost predicate TextsRead(f: EventFilter, given: Reader) {
    && TextRead(f.orderBy, "earnings_date_desc", given(SortKey))
    && TextRead(f.versions.feature, "earnings-reaction-v3", given(FeatureKey))
    && TextRead(f.versions.detector, "fixed-preclose-2pct-v1", given(DetectorKey))
    && TextRead(f.versions.classifier, "path-retention-v1", given(ClassifierKey))
  }

  /** A parsed filter holds exactly the texts listed under each list key, each once, symbols in
      upper case, and the order and versions given, else the defaults. */
  lemma ParsedTexts(pairs: Pairs) returns (f: EventFilter)
    requires Parse(pairs).Ok?
    ensures Parse(pairs) == Ok(f) && ListsRead(f, Given(pairs)) && TextsRead(f, Given(pairs))
  {
    var given := Given(pairs);
    f := BuiltFrom(given, FieldsIn(given));
    SymbolsGiven(given(SymbolKey));
    ListGiven(given(StatusKey));
    ListGiven(given(ClassKey));
    ListGiven(given(DirectionKey));
    ListGiven(given(ModeKey));
    TextGiven(given(SortKey), "earnings_date_desc");
    TextGiven(given(FeatureKey), "earnings-reaction-v3");
    TextGiven(given(DetectorKey), "fixed-preclose-2pct-v1");
    TextGiven(given(ClassifierKey), "path-retention-v1");
  }
}
