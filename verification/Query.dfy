/** Cohort filters as query strings: a printer, a parser, and the check every filter passes
    when it is built. Numbers and dates travel as typed tokens; texts are trimmed and split
    character by character. */
module Query {
  import opened Sequences
  import opened Filters
  import Reactions
  import FeatureRow

  const DEFAULT_LIMIT: int := 100
  const MAX_PAGE_LIMIT: int := 1000
  const MAX_LIMIT: int := 5000

  const DEFAULT_VERSIONS: Versions :=
    Versions(FeatureRow.FEATURE_VERSION, Reactions.DETECTOR_VERSION, Reactions.CLASSIFIER_VERSION)

  const STATUSES: seq<string> := ["complete", "no_trigger_in_window", "insufficient_data"]
  const CLASSES: seq<string> :=
    ["immediate_continuation", "spike_and_fade", "delayed_breakout", "whipsaw", "no_trigger_in_window"]
  const DIRECTIONS: seq<string> := ["up", "down", "flat"]
  const MODES: seq<string> := ["scheduled_capture", "historical_backfill"]
  const ORDERS: seq<string> :=
    ["earnings_date_desc", "earnings_date_asc", "symbol_asc", "initial_return_desc", "initial_return_asc",
     "abs_initial_return_desc", "return_105m_desc", "retention_desc", "retention_asc", "detection_delay_asc",
     "detection_delay_desc", "coverage_ratio_asc", "volume_105m_desc", "eps_surprise_desc"]

  datatype Key =
    | DateFromKey | DateToKey
    | SymbolKey | StatusKey | ClassKey | DirectionKey | ModeKey
    | MinMove | MaxMove | MinRetention | MaxRetention | MinDelay | MaxDelay | MinVolume | MinCoverage
    | MinEpsSurprise | MaxEpsSurprise
    | SortKey | LimitKey | PageKey | FeatureKey | DetectorKey | ClassifierKey

  datatype Token = Plain(text: string) | Day(date: int) | Decimal(number: real) | Whole(whole: int)

  type Pairs = seq<(Key, Token)>

  datatype Parsed = Ok(filter: EventFilter) | BadValue(key: Key) | Invalid

  // ------------------------------------------------------------------ text

  predicate IsSpace(c: char) {
    c == ' ' || '\t' <= c <= '\r' || '\U{1c}' <= c <= '\U{1f}' || c == '\U{85}' || c == '\U{a0}'
  }

  function TrimLeft(s: string): string {
    if s != "" && IsSpace(s[0]) then TrimLeft(s[1..]) else s
  }

  function TrimRight(s: string): string {
    if s != "" && IsSpace(s[|s| - 1]) then TrimRight(s[..|s| - 1]) else s
  }

  function Trim(s: string): string {
    TrimRight(TrimLeft(s))
  }

  function FirstComma(s: string): (i: nat)
    ensures i <= |s| && (i < |s| ==> s[i] == ',')
  {
    if s == "" || s[0] == ',' then 0 else 1 + FirstComma(s[1..])
  }

  /** The non-empty trimmed parts between commas. */
  function Parts(s: string): seq<string>
    decreases |s|
  {
    var i := FirstComma(s);
    var part := Trim(s[..i]);
    (if part == "" then [] else [part]) + if i < |s| then Parts(s[i + 1..]) else []
  }

  function Upper(c: char): char {
    if 'a' <= c <= 'z' then c - 'a' + 'A' else c
  }

  function UpperText(s: string): (r: string)
    ensures |r| == |s|
    ensures forall i :: 0 <= i < |s| ==> r[i] == Upper(s[i])
  {
    if s == "" then "" else [Upper(s[0])] + UpperText(s[1..])
  }

  predicate IsSymbol(s: string) {
    && 1 <= |s| <= 10 && 'A' <= s[0] <= 'Z'
    && forall i :: 0 <= i < |s| ==> 'A' <= s[i] <= 'Z' || '0' <= s[i] <= '9' || s[i] == '.' || s[i] == '-'
  }

  function NormalizeSymbol(s: string): string {
    UpperText(Trim(s))
  }

  /** First occurrences, in order. */
  function KeepDistinct(s: seq<string>): (r: seq<string>)
    ensures forall x :: x in r ==> x in s
  {
    if s == [] then []
    else
      var front, last := KeepDistinct(s[..|s| - 1]), s[|s| - 1];
      if last in front then front else front + [last]
  }

  // ------------------------------------------------------------------ building a filter

  function NormalizeAll(symbols: seq<string>): seq<string> {
    KeepDistinct(Map(symbols, NormalizeSymbol))
  }

  predicate AllSymbols(symbols: seq<string>) {
    forall i :: 0 <= i < |symbols| ==> IsSymbol(NormalizeSymbol(symbols[i]))
  }

  predicate AllKnown(values: seq<string>, allowed: seq<string>) {
    forall i :: 0 <= i < |values| ==> values[i] in allowed
  }

  predicate RealRange(low: Option<real>, high: Option<real>) {
    low.Some? && high.Some? ==> low.value <= high.value
  }

  predicate IntRange(low: Option<int>, high: Option<int>) {
    low.Some? && high.Some? ==> low.value <= high.value
  }

  predicate ScalarsAllowed(f: EventFilter) {
    && IntRange(f.dateFrom, f.dateTo) && f.orderBy in ORDERS
    && (f.limit.Some? ==> 1 <= f.limit.value <= MAX_LIMIT) && f.offset >= 0
    && (f.minCoverage.Some? ==> 0.0 <= f.minCoverage.value <= 1.0)
    && RealRange(f.minAbsInitial, f.maxAbsInitial) && RealRange(f.minRetention, f.maxRetention)
    && IntRange(f.minDelay, f.maxDelay) && RealRange(f.minEpsSurprise, f.maxEpsSurprise)
  }

  predicate ListsAllowed(f: EventFilter) {
    && AllSymbols(f.symbols) && AllKnown(f.statuses, STATUSES) && AllKnown(f.classes, CLASSES)
    && AllKnown(f.directions, DIRECTIONS) && AllKnown(f.modes, MODES)
  }

  predicate VersionsAllowed(v: Versions) {
    Trim(v.feature) != "" && Trim(v.detector) != "" && Trim(v.classifier) != ""
  }

  /** The filter its fields make, normalised, or none when a field is refused. */
  function Construct(f: EventFilter): Option<EventFilter> {
    if ScalarsAllowed(f) && ListsAllowed(f) && VersionsAllowed(f.versions) then
      Some(f.(symbols := NormalizeAll(f.symbols), statuses := KeepDistinct(f.statuses),
              classes := KeepDistinct(f.classes),
              directions := KeepDistinct(f.directions), modes := KeepDistinct(f.modes)))
    else None
  }

  /** A filter as it exists once built. */
  predicate Built(f: EventFilter) {
    Construct(f) == Some(f)
  }

  // ------------------------------------------------------------------ reading the pairs

  /** The values a query gives under each key, in order. */
  type Reader = Key -> seq<Token>

  function GivenUnder(pairs: Pairs, k: Key): seq<Token> {
    if pairs == [] then []
    else
      var (key, t) := pairs[|pairs| - 1];
      GivenUnder(pairs[..|pairs| - 1], k) + if key == k then [t] else []
  }

  function Given(pairs: Pairs): Reader {
    (k: Key) => GivenUnder(pairs, k)
  }

  function PartsOf(t: Token): seq<string> {
    if t.Plain? then Parts(t.text) else []
  }

  function AllParts(tokens: seq<Token>): seq<string> {
    if tokens == [] then [] else AllParts(tokens[..|tokens| - 1]) + PartsOf(tokens[|tokens| - 1])
  }

  function ListOf(tokens: seq<Token>): seq<string> {
    KeepDistinct(AllParts(tokens))
  }

  /** The last value of a key; a blank text counts as absent. */
  function Scalar(tokens: seq<Token>): Option<Token> {
    if tokens == [] then None
    else
      var t := tokens[|tokens| - 1];
      if !t.Plain? then Some(t)
      else if Trim(t.text) == "" then None
      else Some(Plain(Trim(t.text)))
  }

  function DateIn(t: Option<Token>): Option<int> {
    if t.Some? && t.value.Day? then Some(t.value.date) else None
  }

  function RealIn(t: Option<Token>): Option<real> {
    if t.None? then None
    else if t.value.Decimal? then Some(t.value.number)
    else if t.value.Whole? then Some(t.value.whole as real)
    else None
  }

  function IntIn(t: Option<Token>): Option<int> {
    if t.Some? && t.value.Whole? then Some(t.value.whole) else None
  }

  function TextIn(t: Option<Token>, default: string): string {
    if t.Some? && t.value.Plain? then t.value.text else default
  }

  /** Whether the parser accepts a key's value; an absent one always is. */
  predicate Parses(k: Key, t: Option<Token>) {
    t.None? ||
    match k
    case DateFromKey => DateIn(t).Some?
    case DateToKey => DateIn(t).Some?
    case MinDelay => IntIn(t).Some?
    case MaxDelay => IntIn(t).Some?
    case MinVolume => IntIn(t).Some?
    case LimitKey => IntIn(t).Some? && 1 <= IntIn(t).value <= MAX_PAGE_LIMIT
    case PageKey => IntIn(t).Some? && IntIn(t).value >= 1
    case _ => RealIn(t).Some?
  }

  const CHECKED: seq<Key> :=
    [DateFromKey, DateToKey, MinMove, MaxMove, MinRetention, MaxRetention, MinDelay, MaxDelay, MinVolume, MinCoverage,
     MinEpsSurprise, MaxEpsSurprise, LimitKey, PageKey]

  function FirstRefused(given: Reader, keys: seq<Key>): Option<Key> {
    if keys == [] then None
    else if FirstRefused(given, keys[..|keys| - 1]).Some? then FirstRefused(given, keys[..|keys| - 1])
    else if !Parses(keys[|keys| - 1], Scalar(given(keys[|keys| - 1]))) then Some(keys[|keys| - 1])
    else None
  }

  function LimitIn(given: Reader): int {
    var t := Scalar(given(LimitKey));
    if IntIn(t).Some? then IntIn(t).value else DEFAULT_LIMIT
  }

  function PageIn(given: Reader): int {
    var t := Scalar(given(PageKey));
    if IntIn(t).Some? then IntIn(t).value else 1
  }

  function VersionsIn(given: Reader, default: Versions): Versions {
    Versions(TextIn(Scalar(given(FeatureKey)), default.feature),
             TextIn(Scalar(given(DetectorKey)), default.detector),
             TextIn(Scalar(given(ClassifierKey)), default.classifier))
  }

  function FieldsIn(given: Reader): EventFilter {
    EventFilter(
      DateIn(Scalar(given(DateFromKey))), DateIn(Scalar(given(DateToKey))),
      ListOf(given(SymbolKey)), ListOf(given(StatusKey)), ListOf(given(ClassKey)),
      ListOf(given(DirectionKey)), ListOf(given(ModeKey)),
      RealIn(Scalar(given(MinMove))), RealIn(Scalar(given(MaxMove))),
      RealIn(Scalar(given(MinRetention))), RealIn(Scalar(given(MaxRetention))),
      IntIn(Scalar(given(MinDelay))), IntIn(Scalar(given(MaxDelay))), IntIn(Scalar(given(MinVolume))),
      RealIn(Scalar(given(MinCoverage))), RealIn(Scalar(given(MinEpsSurprise))), RealIn(Scalar(given(MaxEpsSurprise))),
      VersionsIn(given, DEFAULT_VERSIONS), TextIn(Scalar(given(SortKey)), "earnings_date_desc"),
      Some(LimitIn(given)), (PageIn(given) - 1) * LimitIn(given))
  }

  function ParseFrom(given: Reader): Parsed {
    if FirstRefused(given, CHECKED).Some? then BadValue(FirstRefused(given, CHECKED).value)
    else
      var built := Construct(FieldsIn(given));
      if built.None? then Invalid else Ok(built.value)
  }

  function Parse(pairs: Pairs): Parsed {
    ParseFrom(Given(pairs))
  }

  method DropRepeats(parts: seq<string>) returns (values: seq<string>)
    ensures values == KeepDistinct(parts)
  {
    values := [];
    for i := 0 to |parts|
      invariant values == KeepDistinct(parts[..i])
    {
      assert parts[..i + 1][..i] == parts[..i];
      if parts[i] !in values {
        values := values + [parts[i]];
      }
    }
    assert parts[..|parts|] == parts;
  }

  method GetList(raw: seq<Token>) returns (values: seq<string>)
    ensures values == ListOf(raw)
  {
    var parts: seq<string> := [];
    for i := 0 to |raw|
      invariant parts == AllParts(raw[..i])
    {
      assert raw[..i + 1][..i] == raw[..i];
      parts := parts + PartsOf(raw[i]);
    }
    assert raw[..|raw|] == raw;
    values := DropRepeats(parts);
  }

  method CheckValues(given: Reader) returns (refused: Option<Key>)
    ensures refused == FirstRefused(given, CHECKED)
  {
    refused := None;
    var n := |CHECKED|;
    for i := 0 to n
      invariant refused == FirstRefused(given, CHECKED[..i]) && refused.None?
    {
      assert CHECKED[..i + 1][..i] == CHECKED[..i];
      if !Parses(CHECKED[i], Scalar(given(CHECKED[i]))) {
        refused := Some(CHECKED[i]);
        RefusedStays(given, CHECKED, i + 1);
        return;
      }
    }
    assert CHECKED[..n] == CHECKED;
  }

  lemma {:induction false} RefusedStays(given: Reader, keys: seq<Key>, n: nat)
    requires n <= |keys| && FirstRefused(given, keys[..n]).Some?
    ensures FirstRefused(given, keys) == FirstRefused(given, keys[..n])
  {
    if n == |keys| {
      assert keys[..n] == keys;
    } else {
      assert keys[..|keys| - 1][..n] == keys[..n];
      RefusedStays(given, keys[..|keys| - 1], n);
    }
  }

  method ParseEventFilter(pairs: Pairs) returns (r: Parsed)
    ensures r == Parse(pairs)
  {
    var given := Given(pairs);
    var refused := CheckValues(given);
    if refused.Some? {
      return BadValue(refused.value);
    }
    var symbols := GetList(given(SymbolKey));
    var statuses := GetList(given(StatusKey));
    var classes := GetList(given(ClassKey));
    var directions := GetList(given(DirectionKey));
    var modes := GetList(given(ModeKey));
    var fields := FieldsIn(given).(symbols := symbols, statuses := statuses, classes := classes,
                                   directions := directions, modes := modes);
    var built := Construct(fields);
    r := if built.None? then Invalid else Ok(built.value);
  }

  // ------------------------------------------------------------------ printing

  function PageNumber(f: EventFilter): int {
    var limit := if f.limit.Some? && f.limit.value != 0 then f.limit.value else DEFAULT_LIMIT;
    f.offset / limit + 1
  }

  function AsPlain(): string -> Token {
    (s: string) => Plain(s)
  }

  function TextTokens(values: seq<string>): seq<Token> {
    Map(values, AsPlain())
  }

  function DayToken(v: Option<int>): seq<Token> {
    if v.None? then [] else [Day(v.value)]
  }

  function RealToken(v: Option<real>): seq<Token> {
    if v.None? then [] else [Decimal(v.value)]
  }

  function IntToken(v: Option<int>): seq<Token> {
    if v.None? then [] else [Whole(v.value)]
  }

  function VersionToken(v: string, default: string): seq<Token> {
    if v == default then [] else [Plain(v)]
  }

  /** What a filter prints under a key. */
  function Tokens(f: EventFilter, k: Key): seq<Token> {
    match k
    case DateFromKey => DayToken(f.dateFrom)
    case DateToKey => DayToken(f.dateTo)
    case SymbolKey => TextTokens(f.symbols)
    case StatusKey => TextTokens(f.statuses)
    case ClassKey => TextTokens(f.classes)
    case DirectionKey => TextTokens(f.directions)
    case ModeKey => TextTokens(f.modes)
    case MinMove => RealToken(f.minAbsInitial)
    case MaxMove => RealToken(f.maxAbsInitial)
    case MinRetention => RealToken(f.minRetention)
    case MaxRetention => RealToken(f.maxRetention)
    case MinDelay => IntToken(f.minDelay)
    case MaxDelay => IntToken(f.maxDelay)
    case MinVolume => IntToken(f.minVolume)
    case MinCoverage => RealToken(f.minCoverage)
    case MinEpsSurprise => RealToken(f.minEpsSurprise)
    case MaxEpsSurprise => RealToken(f.maxEpsSurprise)
    case SortKey => [Plain(f.orderBy)]
    case LimitKey => IntToken(f.limit)
    case PageKey => if PageNumber(f) > 1 then [Whole(PageNumber(f))] else []
    case FeatureKey => VersionToken(f.versions.feature, DEFAULT_VERSIONS.feature)
    case DetectorKey => VersionToken(f.versions.detector, DEFAULT_VERSIONS.detector)
    case ClassifierKey => VersionToken(f.versions.classifier, DEFAULT_VERSIONS.classifier)
  }

  const PRINTED: seq<Key> :=
    [DateFromKey, DateToKey, SymbolKey, StatusKey, ClassKey, DirectionKey, ModeKey,
     MinMove, MaxMove, MinRetention, MaxRetention, MinDelay, MaxDelay, MinVolume, MinCoverage, MinEpsSurprise,
     MaxEpsSurprise,
     SortKey, LimitKey, PageKey, FeatureKey, DetectorKey, ClassifierKey]

  function PairsFor(k: Key, tokens: seq<Token>): Pairs {
    if tokens == [] then [] else PairsFor(k, tokens[..|tokens| - 1]) + [(k, tokens[|tokens| - 1])]
  }

  function Told(f: EventFilter): Reader {
    (k: Key) => Tokens(f, k)
  }

  function PrintKeys(told: Reader, keys: seq<Key>): Pairs {
    if keys == [] then [] else PrintKeys(told, keys[..|keys| - 1]) + PairsFor(keys[|keys| - 1], told(keys[|keys| - 1]))
  }

  function WithoutKey(pairs: Pairs, k: Key): Pairs {
    if pairs == [] then []
    else WithoutKey(pairs[..|pairs| - 1], k) + if pairs[|pairs| - 1].0 == k then [] else [pairs[|pairs| - 1]]
  }

  function Overridden(pairs: Pairs, overrides: seq<(Key, Option<Token>)>): Pairs {
    if overrides == [] then pairs
    else
      var (k, t) := overrides[|overrides| - 1];
      WithoutKey(Overridden(pairs, overrides[..|overrides| - 1]), k) + if t.Some? then [(k, t.value)] else []
  }

  function Printed(f: EventFilter, overrides: seq<(Key, Option<Token>)>): Pairs {
    Overridden(PrintKeys(Told(f), PRINTED), overrides)
  }

  method FilterToQuery(f: EventFilter, overrides: seq<(Key, Option<Token>)>) returns (pairs: Pairs)
    ensures pairs == Printed(f, overrides)
  {
    pairs := [];
    var n := |PRINTED|;
    for i := 0 to n
      invariant pairs == PrintKeys(Told(f), PRINTED[..i])
    {
      assert PRINTED[..i + 1][..i] == PRINTED[..i];
      var k := PRINTED[i];
      var tokens := Tokens(f, k);
      ghost var before := pairs;
      for j := 0 to |tokens|
        invariant pairs == before + PairsFor(k, tokens[..j])
      {
        assert tokens[..j + 1][..j] == tokens[..j];
        pairs := pairs + [(k, tokens[j])];
      }
      assert tokens[..|tokens|] == tokens;
    }
    assert PRINTED[..n] == PRINTED;
    for i := 0 to |overrides|
      invariant pairs == Overridden(PrintKeys(Told(f), PRINTED), overrides[..i])
    {
      assert overrides[..i + 1][..i] == overrides[..i];
      var (k, t) := overrides[i];
      pairs := WithoutKey(pairs, k);
      if t.Some? {
        pairs := pairs + [(k, t.value)];
      }
    }
    assert overrides[..|overrides|] == overrides;
  }
}
