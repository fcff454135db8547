/** What a query string reproduces: parsing a printed filter, exactly. */
module QueryLaws {
  import opened Sequences
  import opened Filters
  import opened Query

  // ------------------------------------------------------------------ text

  /** A text that neither trimming nor splitting changes. */
  predicate Clean(s: string) {
    s != "" && forall i :: 0 <= i < |s| ==> s[i] != ',' && !IsSpace(s[i])
  }

  lemma CleanText(s: string)
    requires Clean(s)
    ensures Trim(s) == s && Parts(s) == [s]
  {
    assert s[..|s|] == s;
  }

  lemma {:induction false} TrimLeftEnds(s: string)
    ensures TrimLeft(s) == "" || !IsSpace(TrimLeft(s)[0])
  {
    if s != "" && IsSpace(s[0]) {
      TrimLeftEnds(s[1..]);
    }
  }

  lemma {:induction false} TrimRightEnds(s: string)
    ensures TrimRight(s) == "" || !IsSpace(TrimRight(s)[|TrimRight(s)| - 1])
    ensures |TrimRight(s)| <= |s| && TrimRight(s) == s[..|TrimRight(s)|]
  {
    if s != "" && IsSpace(s[|s| - 1]) {
      TrimRightEnds(s[..|s| - 1]);
    }
  }

  lemma TrimTwice(s: string)
    ensures Trim(Trim(s)) == Trim(s)
  {
    var left := TrimLeft(s);
    TrimLeftEnds(s);
    TrimRightEnds(left);
    var trimmed := TrimRight(left);
    if trimmed != "" {
      assert trimmed[0] == left[0];
      assert TrimLeft(trimmed) == trimmed;
    }
  }

  lemma CleanStatuses()
    ensures forall i :: 0 <= i < |STATUSES| ==> Clean(STATUSES[i])
  {
    assert Clean("complete") && Clean("no_trigger_in_window") && Clean("insufficient_data");
  }

  lemma CleanClasses()
    ensures forall i :: 0 <= i < |CLASSES| ==> Clean(CLASSES[i])
  {
    assert Clean("immediate_continuation") && Clean("spike_and_fade") && Clean("delayed_breakout");
    assert Clean("whipsaw") && Clean("no_trigger_in_window");
  }

  lemma CleanSides()
    ensures forall i :: 0 <= i < |DIRECTIONS| ==> Clean(DIRECTIONS[i])
    ensures forall i :: 0 <= i < |MODES| ==> Clean(MODES[i])
  {
    assert Clean("up") && Clean("down") && Clean("flat");
    assert Clean("scheduled_capture") && Clean("historical_backfill");
  }

  lemma CleanReturnOrders()
    ensures Clean(ORDERS[3]) && Clean(ORDERS[4])
  {
  }

  lemma CleanMoveOrders()
    ensures Clean(ORDERS[5]) && Clean(ORDERS[6])
  {
  }

  lemma CleanRetentionOrders()
    ensures Clean(ORDERS[7]) && Clean(ORDERS[8]) && Clean(ORDERS[9])
  {
  }

  lemma CleanOtherOrders()
    ensures && Clean(ORDERS[10])
            && Clean(ORDERS[11])
            && Clean(ORDERS[12])
            && Clean(ORDERS[13])
  {
  }

  lemma CleanOrder(s: string)
    requires s in ORDERS
    ensures Clean(s)
  {
    CleanReturnOrders();
    CleanMoveOrders();
    CleanRetentionOrders();
    CleanOtherOrders();
    var orders := ORDERS;
    var i :| 0 <= i < |orders| && orders[i] == s;
  }

  lemma FeatureTrimmed()
    ensures Trim(FeatureRow.FEATURE_VERSION) == FeatureRow.FEATURE_VERSION
  {
    CleanText(FeatureRow.FEATURE_VERSION);
  }

  lemma DefaultsTrimmed()
    ensures TrimmedVersions(DEFAULT_VERSIONS) == DEFAULT_VERSIONS
  {
    FeatureTrimmed();
  }

  // ------------------------------------------------------------------ lists

  lemma {:induction false} DistinctTwice(s: seq<string>)
    ensures KeepDistinct(KeepDistinct(s)) == KeepDistinct(s)
  {
    if s != [] {
      var front, last := KeepDistinct(s[..|s| - 1]), s[|s| - 1];
      DistinctTwice(s[..|s| - 1]);
      if last !in front {
        assert (front + [last])[..|front|] == front;
      }
    }
  }

  lemma {:induction false} PartsPrinted(values: seq<string>)
    requires forall i :: 0 <= i < |values| ==> Clean(values[i])
    ensures AllParts(Map(values, AsPlain())) == values
  {
    if values != [] {
      var n := |values| - 1;
      PartsPrinted(values[..n]);
      MapNext(values, AsPlain(), n);
      assert values[..n + 1] == values;
      CleanText(values[n]);
      var front := Map(values[..n], AsPlain());
      assert (front + [Plain(values[n])])[..|front|] == front;
    }
  }

  /** Printing a list and reading it back gives the list. */
  ghost predicate ReturnsList(values: seq<string>) {
    ListOf(TextTokens(values)) == values
  }

  lemma ListPrinted(values: seq<string>)
    requires CleanList(values)
    ensures ReturnsList(values)
  {
    PartsPrinted(values);
  }

  lemma SymbolClean(s: string)
    requires IsSymbol(s)
    ensures Clean(s)
  {
  }

  lemma SymbolsClean(symbols: seq<string>, i: nat)
    requires AllSymbols(symbols) && NormalizeAll(symbols) == symbols && i < |symbols|
    ensures Clean(symbols[i])
  {
    var normalized := Map(symbols, NormalizeSymbol);
    MapAt(symbols, NormalizeSymbol);
    assert symbols[i] in normalized;
    var j :| 0 <= j < |normalized| && normalized[j] == symbols[i];
    assert IsSymbol(NormalizeSymbol(symbols[j]));
    SymbolClean(symbols[i]);
  }

  lemma SymbolsBuilt(symbols: seq<string>)
    requires AllSymbols(symbols) && NormalizeAll(symbols) == symbols
    ensures CleanList(symbols)
  {
    DistinctTwice(Map(symbols, NormalizeSymbol));
    forall i | 0 <= i < |symbols| ensures Clean(symbols[i]) {
      SymbolsClean(symbols, i);
    }
  }

  ghost predicate CleanList(values: seq<string>) {
    KeepDistinct(values) == values && forall i :: 0 <= i < |values| ==> Clean(values[i])
  }

  // ------------------------------------------------------------------ keys

  lemma {:induction false} GivenConcat(a: Pairs, b: Pairs, k: Key)
    ensures GivenUnder(a + b, k) == GivenUnder(a, k) + GivenUnder(b, k)
  {
    if b == [] {
      assert a + b == a;
    } else {
      assert (a + b)[..|a + b| - 1] == a + b[..|b| - 1];
      GivenConcat(a, b[..|b| - 1], k);
    }
  }

  lemma {:induction false} GivenFor(j: Key, tokens: seq<Token>, k: Key)
    ensures GivenUnder(PairsFor(j, tokens), k) == if j == k then tokens else []
  {
    if tokens != [] {
      var n := |tokens| - 1;
      GivenFor(j, tokens[..n], k);
      var before := PairsFor(j, tokens[..n]);
      assert (before + [(j, tokens[n])])[..|before|] == before;
    }
  }

  /** The place of a key in the printing order. */
  function Rank(k: Key): nat {
    match k
    case DateFromKey => 0
    case DateToKey => 1
    case SymbolKey => 2
    case StatusKey => 3
    case ClassKey => 4
    case DirectionKey => 5
    case ModeKey => 6
    case MinMove => 7
    case MaxMove => 8
    case MinRetention => 9
    case MaxRetention => 10
    case MinDelay => 11
    case MaxDelay => 12
    case MinVolume => 13
    case MinCoverage => 14
    case MinEpsSurprise => 15
    case MaxEpsSurprise => 16
    case SortKey => 17
    case LimitKey => 18
    case PageKey => 19
    case FeatureKey => 20
    case DetectorKey => 21
    case ClassifierKey => 22
  }

  lemma RankIsPlace(k: Key)
    ensures Rank(k) < |PRINTED| && PRINTED[Rank(k)] == k
  {
  }

  lemma PlaceIsRank(i: nat)
    requires i < |PRINTED|
    ensures Rank(PRINTED[i]) == i
  {
  }

  ghost predicate NoRepeat(keys: seq<Key>) {
    forall i, j :: 0 <= i < j < |keys| ==> keys[i] != keys[j]
  }

  lemma GivenOfNext(told: Reader, front: seq<Key>, last: Key, k: Key)
    ensures GivenUnder(PrintKeys(told, front + [last]), k)
            == GivenUnder(PrintKeys(told, front), k) + if k == last then told(k) else []
  {
    assert (front + [last])[..|front|] == front;
    GivenConcat(PrintKeys(told, front), PairsFor(last, told(last)), k);
    GivenFor(last, told(last), k);
  }

  lemma {:induction false} GivenOfKeys(told: Reader, keys: seq<Key>, k: Key)
    requires NoRepeat(keys)
    ensures GivenUnder(PrintKeys(told, keys), k) == if k in keys then told(k) else []
  {
    if keys != [] {
      var n := |keys| - 1;
      var front, last := keys[..n], keys[n];
      GivenOfKeys(told, front, k);
      GivenOfNext(told, front, last, k);
      assert keys == front + [last];
    }
  }

  lemma PrintedOnce(k: Key)
    ensures NoRepeat(PRINTED) && k in PRINTED
  {
    var keys := PRINTED;
    forall i, j | 0 <= i < j < |keys| ensures keys[i] != keys[j] {
      PlaceIsRank(i);
      PlaceIsRank(j);
    }
    RankIsPlace(k);
  }

  /** Under each key a printed filter carries that key's tokens and nothing else. */
  lemma GivenPrinted(f: EventFilter, k: Key)
    ensures GivenUnder(Printed(f, []), k) == Tokens(f, k)
  {
    PrintedOnce(k);
    GivenOfKeys(Told(f), PRINTED, k);
  }

  lemma GivenNext(pairs: Pairs, p: (Key, Token), k: Key)
    ensures GivenUnder(pairs + [p], k) == GivenUnder(pairs, k) + if p.0 == k then [p.1] else []
  {
    assert (pairs + [p])[..|pairs|] == pairs;
  }

  lemma {:induction false} GivenWithout(pairs: Pairs, j: Key, k: Key)
    ensures GivenUnder(WithoutKey(pairs, j), k) == if j == k then [] else GivenUnder(pairs, k)
  {
    if pairs != [] {
      var n := |pairs| - 1;
      GivenWithout(pairs[..n], j, k);
      GivenNext(WithoutKey(pairs[..n], j), pairs[n], k);
      assert WithoutKey(pairs[..n], j) + [] == WithoutKey(pairs[..n], j);
    }
  }

  lemma OverriddenGiven(pairs: Pairs, t: Token, k: Key)
    ensures GivenUnder(Overridden(pairs, [(PageKey, Some(t))]), k) == if k == PageKey then [t] else GivenUnder(pairs, k)
  {
    var overrides := [(PageKey, Some(t))];
    assert overrides[..0] == [];
    assert Overridden(pairs, overrides[..0]) == pairs;
    var kept := WithoutKey(pairs, PageKey);
    assert (kept + [(PageKey, t)])[..|kept|] == kept;
    GivenWithout(pairs, PageKey, k);
  }

  lemma GivenOverridden(f: EventFilter, page: int, k: Key)
    ensures GivenUnder(Printed(f, [(PageKey, Some(Whole(page)))]), k)
            == if k == PageKey then [Whole(page)] else Tokens(f, k)
  {
    OverriddenGiven(PrintKeys(Told(f), PRINTED), Whole(page), k);
    GivenPrinted(f, k);
  }

  // ------------------------------------------------------------------ what parses back

  function LimitOf(f: EventFilter): int {
    if f.limit.Some? then f.limit.value else DEFAULT_LIMIT
  }

  function TrimmedVersions(v: Versions): Versions {
    Versions(Trim(v.feature), Trim(v.detector), Trim(v.classifier))
  }

  /** The filter a query string for `f` describes on page `page`. */
  function Described(f: EventFilter, page: int): EventFilter {
    f.(limit := Some(LimitOf(f)), offset := (page - 1) * LimitOf(f), versions := TrimmedVersions(f.versions))
  }

  /** The pairs carry `f` under every key but the page, which they give as `page`. */
  ghost predicate Carries(given: Reader, f: EventFilter, page: int) {
    && (forall k :: k != PageKey ==> given(k) == Tokens(f, k))
    && PageIn(given) == page && Parses(PageKey, Scalar(given(PageKey)))
  }

  ghost predicate CarriesVersions(given: Reader, v: Versions, default: Versions) {
    && given(FeatureKey) == VersionToken(v.feature, default.feature)
    && given(DetectorKey) == VersionToken(v.detector, default.detector)
    && given(ClassifierKey) == VersionToken(v.classifier, default.classifier)
  }

  lemma VersionsBack(given: Reader, v: Versions, default: Versions)
    requires CarriesVersions(given, v, default) && VersionsAllowed(v) && TrimmedVersions(default) == default
    ensures VersionsIn(given, default) == TrimmedVersions(v)
  {
  }

  ghost predicate ReturnsLists(f: EventFilter) {
    && ReturnsList(f.symbols) && ReturnsList(f.statuses) && ReturnsList(f.classes)
    && ReturnsList(f.directions) && ReturnsList(f.modes)
  }

  lemma ListsBack(given: Reader, f: EventFilter, page: int)
    requires Carries(given, f, page) && ReturnsLists(f)
    ensures ListsCarried(given, f)
  {
  }

  lemma CleanReturns(f: EventFilter)
    requires CleanList(f.symbols) && CleanList(f.statuses) && CleanList(f.classes) && CleanList(f.directions)
             && CleanList(f.modes)
    ensures ReturnsLists(f)
  {
    ListPrinted(f.symbols);
    ListPrinted(f.statuses);
    ListPrinted(f.classes);
    ListPrinted(f.directions);
    ListPrinted(f.modes);
  }

  lemma BuiltLists(f: EventFilter)
    requires Built(f)
    ensures && CleanList(f.symbols)
            && CleanList(f.statuses)
            && CleanList(f.classes)
            && CleanList(f.directions)
            && CleanList(f.modes)
  {
    SymbolsBuilt(f.symbols);
    CleanStatuses();
    CleanClasses();
    CleanSides();
  }

  lemma ScalarsBack(given: Reader, f: EventFilter, page: int)
    requires Carries(given, f, page) && Clean(f.orderBy)
    ensures && DateIn(Scalar(given(DateFromKey))) == f.dateFrom
            && DateIn(Scalar(given(DateToKey))) == f.dateTo
    ensures TextIn(Scalar(given(SortKey)), "earnings_date_desc") == f.orderBy
    ensures LimitIn(given) == LimitOf(f)
  {
    OrderBack(f.orderBy);
  }

  lemma OrderBack(s: string)
    requires Clean(s)
    ensures Scalar([Plain(s)]) == Some(Plain(s))
  {
    CleanText(s);
  }

  lemma RealKeyBack(given: Reader, f: EventFilter, page: int, k: Key, v: Option<real>)
    requires Carries(given, f, page) && k != PageKey && Tokens(f, k) == RealToken(v)
    ensures RealIn(Scalar(given(k))) == v
  {
  }

  lemma IntKeyBack(given: Reader, f: EventFilter, page: int, k: Key, v: Option<int>)
    requires Carries(given, f, page) && k != PageKey && Tokens(f, k) == IntToken(v)
    ensures IntIn(Scalar(given(k))) == v
  {
  }

  lemma MovesBack(given: Reader, f: EventFilter, page: int)
    requires Carries(given, f, page)
    ensures && RealIn(Scalar(given(MinMove))) == f.minAbsInitial
            && RealIn(Scalar(given(MaxMove))) == f.maxAbsInitial
    ensures && RealIn(Scalar(given(MinRetention))) == f.minRetention
            && RealIn(Scalar(given(MaxRetention))) == f.maxRetention
  {
    RealKeyBack(given, f, page, MinMove, f.minAbsInitial);
    RealKeyBack(given, f, page, MaxMove, f.maxAbsInitial);
    RealKeyBack(given, f, page, MinRetention, f.minRetention);
    RealKeyBack(given, f, page, MaxRetention, f.maxRetention);
  }

  lemma CountsBack(given: Reader, f: EventFilter, page: int)
    requires Carries(given, f, page)
    ensures && IntIn(Scalar(given(MinDelay))) == f.minDelay
            && IntIn(Scalar(given(MaxDelay))) == f.maxDelay
    ensures IntIn(Scalar(given(MinVolume))) == f.minVolume
  {
    IntKeyBack(given, f, page, MinDelay, f.minDelay);
    IntKeyBack(given, f, page, MaxDelay, f.maxDelay);
    IntKeyBack(given, f, page, MinVolume, f.minVolume);
  }

  lemma RatiosBack(given: Reader, f: EventFilter, page: int)
    requires Carries(given, f, page)
    ensures RealIn(Scalar(given(MinCoverage))) == f.minCoverage
    ensures && RealIn(Scalar(given(MinEpsSurprise))) == f.minEpsSurprise
            && RealIn(Scalar(given(MaxEpsSurprise))) == f.maxEpsSurprise
  {
    RealKeyBack(given, f, page, MinCoverage, f.minCoverage);
    RealKeyBack(given, f, page, MinEpsSurprise, f.minEpsSurprise);
    RealKeyBack(given, f, page, MaxEpsSurprise, f.maxEpsSurprise);
  }

  lemma NumbersBack(given: Reader, f: EventFilter, page: int)
    requires Carries(given, f, page)
    ensures NumbersCarried(given, f)
  {
    MovesBack(given, f, page);
    CountsBack(given, f, page);
    RatiosBack(given, f, page);
  }

  ghost predicate ListsCarried(given: Reader, f: EventFilter) {
    && ListOf(given(SymbolKey)) == f.symbols && ListOf(given(StatusKey)) == f.statuses
    && ListOf(given(ClassKey)) == f.classes && ListOf(given(DirectionKey)) == f.directions
    && ListOf(given(ModeKey)) == f.modes
  }

  ghost predicate ScalarsCarried(given: Reader, f: EventFilter) {
    && DateIn(Scalar(given(DateFromKey))) == f.dateFrom && DateIn(Scalar(given(DateToKey))) == f.dateTo
    && TextIn(Scalar(given(SortKey)), "earnings_date_desc") == f.orderBy
    && LimitIn(given) == LimitOf(f)
  }

  ghost predicate NumbersCarried(given: Reader, f: EventFilter) {
    && RealIn(Scalar(given(MinMove))) == f.minAbsInitial && RealIn(Scalar(given(MaxMove))) == f.maxAbsInitial
    && RealIn(Scalar(given(MinRetention))) == f.minRetention && RealIn(Scalar(given(MaxRetention))) == f.maxRetention
    && IntIn(Scalar(given(MinDelay))) == f.minDelay && IntIn(Scalar(given(MaxDelay))) == f.maxDelay
    && IntIn(Scalar(given(MinVolume))) == f.minVolume && RealIn(Scalar(given(MinCoverage))) == f.minCoverage
    && RealIn(Scalar(given(MinEpsSurprise))) == f.minEpsSurprise
    && RealIn(Scalar(given(MaxEpsSurprise))) == f.maxEpsSurprise
  }

  lemma CarriedFields(given: Reader, f: EventFilter, page: int)
    requires ListsCarried(given, f) && ScalarsCarried(given, f) && NumbersCarried(given, f) && PageIn(given) == page
    requires VersionsIn(given, DEFAULT_VERSIONS) == TrimmedVersions(f.versions)
    ensures FieldsIn(given) == Described(f, page)
  {
  }

  lemma VersionTokens(given: Reader, f: EventFilter, page: int)
    requires Carries(given, f, page)
    ensures CarriesVersions(given, f.versions, DEFAULT_VERSIONS)
  {
  }

  lemma VersionsCarried(given: Reader, f: EventFilter, page: int)
    requires Carries(given, f, page) && VersionsAllowed(f.versions)
    ensures VersionsIn(given, DEFAULT_VERSIONS) == TrimmedVersions(f.versions)
  {
    VersionTokens(given, f, page);
    DefaultsTrimmed();
    VersionsBack(given, f.versions, DEFAULT_VERSIONS);
  }

  lemma ListsCarriedBack(given: Reader, f: EventFilter, page: int)
    requires Carries(given, f, page) && Built(f)
    ensures ListsCarried(given, f)
  {
    assert ReturnsLists(f) by {
      BuiltLists(f);
      CleanReturns(f);
    }
    ListsBack(given, f, page);
  }

  lemma ScalarsCarriedBack(given: Reader, f: EventFilter, page: int)
    requires Carries(given, f, page) && f.orderBy in ORDERS
    ensures ScalarsCarried(given, f)
  {
    CleanOrder(f.orderBy);
    ScalarsBack(given, f, page);
  }

  lemma FieldsBack(given: Reader, f: EventFilter, page: int)
    requires Carries(given, f, page) && Built(f)
    ensures FieldsIn(given) == Described(f, page)
  {
    ListsCarriedBack(given, f, page);
    ScalarsCarriedBack(given, f, page);
    NumbersBack(given, f, page);
    VersionsCarried(given, f, page);
    CarriedFields(given, f, page);
  }

  lemma {:induction false} NoneRefused(given: Reader, keys: seq<Key>)
    ensures FirstRefused(given, keys).None? <==> forall i :: 0 <= i < |keys| ==> Parses(keys[i], Scalar(given(keys[i])))
    ensures FirstRefused(given, keys).Some? ==>
              FirstRefused(given, keys).value in keys
                  && !Parses(FirstRefused(given, keys).value, Scalar(given(FirstRefused(given, keys).value)))
  {
    if keys != [] {
      NoneRefused(given, keys[..|keys| - 1]);
      assert keys == keys[..|keys| - 1] + [keys[|keys| - 1]];
    }
  }

  lemma TokenAccepted(given: Reader, f: EventFilter, page: int, k: Key)
    requires Carries(given, f, page) && k in CHECKED
    ensures Parses(k, Scalar(given(k))) <==> k != LimitKey || f.limit.None? || 1 <= f.limit.value <= MAX_PAGE_LIMIT
  {
    if k != PageKey {
      assert given(k) == Tokens(f, k);
    }
  }

  lemma RefusedExactly(given: Reader, f: EventFilter, page: int)
    requires Carries(given, f, page) && Built(f)
    ensures FirstRefused(given, CHECKED) == if LimitOf(f) <= MAX_PAGE_LIMIT then None else Some(LimitKey)
  {
    NoneRefused(given, CHECKED);
    forall k | k in CHECKED ensures Parses(k, Scalar(given(k))) <==> k != LimitKey || LimitOf(f) <= MAX_PAGE_LIMIT {
      TokenAccepted(given, f, page, k);
    }
    assert CHECKED[12] == LimitKey;
  }

  lemma DescribedBuilds(f: EventFilter, page: int)
    requires Built(f) && page >= 1
    ensures Construct(Described(f, page)) == Some(Described(f, page))
  {
    TrimTwice(f.versions.feature);
    TrimTwice(f.versions.detector);
    TrimTwice(f.versions.classifier);
  }

  lemma CarriedParses(given: Reader, f: EventFilter, page: int)
    requires Carries(given, f, page) && Built(f) && page >= 1
    ensures ParseFrom(given) == if LimitOf(f) <= MAX_PAGE_LIMIT then Ok(Described(f, page)) else BadValue(LimitKey)
  {
    RefusedExactly(given, f, page);
    FieldsBack(given, f, page);
    DescribedBuilds(f, page);
  }

  lemma PagePositive(f: EventFilter)
    requires Built(f)
    ensures PageNumber(f) >= 1
  {
  }

  lemma PrintedCarries(f: EventFilter)
    requires Built(f)
    ensures Carries(Given(Printed(f, [])), f, PageNumber(f))
  {
    var pairs := Printed(f, []);
    forall k ensures Given(pairs)(k) == Tokens(f, k) {
      GivenPrinted(f, k);
    }
    PagePositive(f);
    PageBack(Given(pairs), f);
  }

  lemma PageBack(given: Reader, f: EventFilter)
    requires (forall k :: given(k) == Tokens(f, k)) && PageNumber(f) >= 1
    ensures Carries(given, f, PageNumber(f))
  {
  }

  /** Parsing what was printed, for every filter that can be built. */
  lemma ParsePrinted(f: EventFilter)
    requires Built(f)
    ensures Parse(Printed(f, []))
            == if LimitOf(f) <= MAX_PAGE_LIMIT then Ok(Described(f, PageNumber(f))) else BadValue(LimitKey)
  {
    PagePositive(f);
    PrintedCarries(f);
    CarriedParses(Given(Printed(f, [])), f, PageNumber(f));
  }

  lemma StartsPage(offset: int, limit: int)
    requires limit > 0
    ensures offset / limit * limit == offset <==> offset % limit == 0
  {
    assert offset == offset / limit * limit + offset % limit;
  }

  lemma OffsetBack(f: EventFilter)
    requires Built(f)
    ensures (PageNumber(f) - 1) * LimitOf(f) == f.offset <==> f.offset % LimitOf(f) == 0
  {
    StartsPage(f.offset, LimitOf(f));
  }

  lemma SameFilterExactly(f: EventFilter)
    requires Built(f)
    ensures (if LimitOf(f) <= MAX_PAGE_LIMIT then Ok(Described(f, PageNumber(f))) else BadValue(LimitKey)) == Ok(f) <==>
            f.limit.Some? && LimitOf(f) <= MAX_PAGE_LIMIT && f.offset % LimitOf(f) == 0
                && TrimmedVersions(f.versions) == f.versions
  {
    OffsetBack(f);
  }

  /** The printed query reproduces a filter exactly when its limit is set and at most a page's
      maximum, its offset starts a page, and its versions carry no outer blanks. */
  lemma RoundTripExactly(f: EventFilter)
    requires Built(f)
    ensures Parse(Printed(f, [])) == Ok(f) <==>
            f.limit.Some? && LimitOf(f) <= MAX_PAGE_LIMIT && f.offset % LimitOf(f) == 0
                && TrimmedVersions(f.versions) == f.versions
  {
    ParsePrinted(f);
    SameFilterExactly(f);
  }

  function Paged(limit: int, offset: int): EventFilter {
    EventFilter(None, None, [], [], [], [], [], None, None, None, None, None, None, None, None, None, None,
                DEFAULT_VERSIONS, "earnings_date_desc", Some(limit), offset)
  }

  lemma PagedBuilt(limit: int, offset: int)
    requires 1 <= limit <= MAX_PAGE_LIMIT && offset >= 0
    ensures Built(Paged(limit, offset))
  {
  }

  lemma InsidePage(f: EventFilter)
    requires Built(f) && f.offset % LimitOf(f) != 0
    ensures Parse(Printed(f, [])) != Ok(f)
  {
    RoundTripExactly(f);
  }

  /** A filter that starts at the sixth row of ten: its own query string loses the offset. */
  lemma OffsetInsidePage() returns (f: EventFilter)
    ensures Built(f) && f.limit == Some(10) && f.offset == 5
    ensures Parse(Printed(f, [])) != Ok(f)
  {
    f := Paged(10, 5);
    PagedBuilt(10, 5);
    InsidePage(f);
  }

  lemma LinkCarries(f: EventFilter, page: int)
    requires page >= 1
    ensures Carries(Given(Printed(f, [(PageKey, Some(Whole(page)))])), f, page)
  {
    var pairs := Printed(f, [(PageKey, Some(Whole(page)))]);
    forall k ensures Given(pairs)(k) == if k == PageKey then [Whole(page)] else Tokens(f, k) {
      GivenOverridden(f, page, k);
    }
  }

  /** A page link describes the same filter at that page's offset. */
  lemma PageLink(f: EventFilter, page: int)
    requires Built(f) && page >= 1 && LimitOf(f) <= MAX_PAGE_LIMIT
    ensures Parse(Printed(f, [(PageKey, Some(Whole(page)))])) == Ok(Described(f, page))
  {
    LinkCarries(f, page);
    CarriedParses(Given(Printed(f, [(PageKey, Some(Whole(page)))])), f, page);
  }
}
