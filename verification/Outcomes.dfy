/** The following-session outcome of an event: labels read from exact bars, and a status
    that depends on the clock only until the evidence is final. */
module Outcomes {
  import opened Sequences
  import opened Bars

  const GRACE_MINUTES: int := 10
  const MIN_REGULAR_COVERAGE_RATIO: real := 0.95
  const OUTCOME_HORIZONS: seq<int> := [5, 30, 60]

  datatype Coverage = Coverage(
    phase: string, marketDate: int, session: string, start: int, end: int, observed: int, expected: int,
    source: string, receivedAt: int, response: string, mode: string, calendar: string, calendarVersion: string,
    flags: seq<string>, bars: seq<Bar>)

  datatype Evidence = Evidence(
    symbol: string, date: int, followingClose: int,
    regular: Option<Coverage>, premarket: Option<Coverage>, following: Option<Coverage>)

  datatype Prices = Prices(first: Option<real>, high: Option<real>, low: Option<real>, last: Option<real>)

  datatype Values = Values(
    reference: Option<real>, referenceTs: Option<int>,
    premarket: Prices, premarketFirstTs: Option<int>, premarketLastTs: Option<int>, regular: Prices,
    premarketReturns: Prices, regularReturns: Prices, horizons: map<int, Option<real>>)

  datatype Status = NotYetAvailable | InsufficientData | CompleteOutcome

  datatype Tally = Tally(observed: int, expected: int, ratio: real)

  datatype Result = Result(
    symbol: string, date: int, status: Status, values: Values, regular: Tally, premarket: Tally, following: Tally,
    digest: Evidence, missing: seq<string>, flags: seq<string>, availableAfter: int)

  // ------------------------------------------------------------------ reading one phase

  function Ratio(c: Coverage): real
    requires c.expected > 0
  {
    Min2(1.0, c.observed as real / c.expected as real)
  }

  function BarsOf(c: Option<Coverage>): seq<Bar> {
    if c.None? then [] else Deduplicated(c.value.bars)
  }

  function Exact(c: Option<Coverage>, t: int): Option<Bar> {
    At(BarsOf(c), t)
  }

  function CloseAt(b: Option<Bar>): Option<real> {
    if b.None? then None else Some(b.value.close)
  }

  function OpenAt(b: Option<Bar>): Option<real> {
    if b.None? then None else Some(b.value.open)
  }

  function TimeAt(b: Option<Bar>): Option<int> {
    if b.None? then None else Some(b.value.ts)
  }

  function HighOf(): Bar -> real {
    (b: Bar) => b.high
  }

  function LowOf(): Bar -> real {
    (b: Bar) => b.low
  }

  function Highest(bars: seq<Bar>): Option<real> {
    if bars == [] then None else Some(MaxOf(Map(bars, HighOf())))
  }

  function Lowest(bars: seq<Bar>): Option<real> {
    if bars == [] then None else Some(MinOf(Map(bars, LowOf())))
  }

  function FirstBar(bars: seq<Bar>): Option<Bar> {
    if bars == [] then None else Some(bars[0])
  }

  function LastBar(bars: seq<Bar>): Option<Bar> {
    if bars == [] then None else Some(bars[|bars| - 1])
  }

  /** The last minute of a phase starts one minute before its end. */
  function ClosingBar(c: Option<Coverage>): Option<Bar> {
    if c.None? then None else Exact(c, c.value.end - MINUTE)
  }

  function OpeningBar(c: Option<Coverage>): Option<Bar> {
    if c.None? then None else Exact(c, c.value.start)
  }

  /** Minute N is the bar that starts N - 1 minutes after the open. */
  function HorizonBar(c: Option<Coverage>, minute: int): Option<Bar> {
    if c.None? then None else Exact(c, c.value.start + (minute - 1) * MINUTE)
  }

  // ------------------------------------------------------------------ labels

  function Reference(e: Evidence): Option<real> {
    CloseAt(ClosingBar(e.regular))
  }

  /** What the division and the ratios need of the stored evidence. */
  predicate Computable(e: Evidence) {
    && Reference(e) != Some(0.0)
    && (e.regular.Some? ==> e.regular.value.expected > 0)
    && (e.premarket.Some? ==> e.premarket.value.expected > 0)
    && (e.following.Some? ==> e.following.value.expected > 0)
  }

  function Return(reference: Option<real>, price: Option<real>): Option<real>
    requires reference != Some(0.0)
  {
    if reference.None? || price.None? then None else Some(PctChange(reference.value, price.value))
  }

  function Returns(reference: Option<real>, p: Prices): Prices
    requires reference != Some(0.0)
  {
    Prices(Return(reference, p.first), Return(reference, p.high), Return(reference, p.low), Return(reference, p.last))
  }

  function PremarketPrices(e: Evidence): Prices {
    var bars := BarsOf(e.premarket);
    Prices(OpenAt(FirstBar(bars)), Highest(bars), Lowest(bars), CloseAt(LastBar(bars)))
  }

  function RegularPrices(e: Evidence): Prices {
    var bars := BarsOf(e.following);
    Prices(OpenAt(OpeningBar(e.following)), Highest(bars), Lowest(bars), CloseAt(ClosingBar(e.following)))
  }

  function HorizonReturn(e: Evidence, minute: int): Option<real>
    requires Computable(e)
  {
    Return(Reference(e), CloseAt(HorizonBar(e.following, minute)))
  }

  function ValuesOf(e: Evidence): Values
    requires Computable(e)
  {
    var reference := Reference(e);
    Values(reference, TimeAt(ClosingBar(e.regular)),
           PremarketPrices(e), TimeAt(FirstBar(BarsOf(e.premarket))), TimeAt(LastBar(BarsOf(e.premarket))),
           RegularPrices(e),
           Returns(reference, PremarketPrices(e)), Returns(reference, RegularPrices(e)),
           map[5 := HorizonReturn(e, 5), 30 := HorizonReturn(e, 30), 60 := HorizonReturn(e, 60)])
  }

  // ------------------------------------------------------------------ what is missing

  datatype Field = Field(name: string, present: bool)

  function ReferenceFields(v: Values): seq<Field> {
    [Field("reference_close", v.reference.Some?), Field("reference_close_ts", v.referenceTs.Some?)]
  }

  function PremarketFields(v: Values): seq<Field> {
    [Field("premarket_first", v.premarket.first.Some?), Field("premarket_high", v.premarket.high.Some?),
     Field("premarket_low", v.premarket.low.Some?), Field("premarket_last", v.premarket.last.Some?)]
  }

  function RegularFields(v: Values): seq<Field> {
    [Field("regular_open", v.regular.first.Some?), Field("regular_high", v.regular.high.Some?),
     Field("regular_low", v.regular.low.Some?), Field("regular_close", v.regular.last.Some?)]
  }

  predicate HorizonPresent(v: Values, minute: int) {
    minute in v.horizons && v.horizons[minute].Some?
  }

  function HorizonFields(v: Values): seq<Field> {
    [Field("regular_return_5m", HorizonPresent(v, 5)), Field("regular_return_30m", HorizonPresent(v, 30)),
     Field("regular_return_60m", HorizonPresent(v, 60))]
  }

  function RequiredFields(v: Values): seq<Field> {
    ReferenceFields(v) + PremarketFields(v) + RegularFields(v) + HorizonFields(v)
  }

  function AbsentNames(fields: seq<Field>): seq<string> {
    if fields == [] then []
    else
      var last := fields[|fields| - 1];
      AbsentNames(fields[..|fields| - 1]) + if last.present then [] else [last.name]
  }

  /** The names of the covered phases that fail a test. */
  function Flagged(phases: seq<Option<Coverage>>, test: Coverage -> bool, suffix: string): seq<string> {
    if phases == [] then []
    else
      var last := phases[|phases| - 1];
      Flagged(phases[..|phases| - 1], test, suffix) + if last.Some? && test(last.value) then [last.value.phase + suffix]
          else []
  }

  function IsThin(): Coverage -> bool {
    (c: Coverage) => c.expected > 0 && Ratio(c) < MIN_REGULAR_COVERAGE_RATIO
  }

  predicate HasInvalidBar(bars: seq<Bar>) {
    exists i :: 0 <= i < |bars| && !SoundPrices(bars[i])
  }

  function IsInvalid(): Coverage -> bool {
    (c: Coverage) => HasInvalidBar(c.bars)
  }

  function Times(bars: seq<Bar>): set<int> {
    set i | 0 <= i < |bars| :: bars[i].ts
  }

  function IsRepeating(): Coverage -> bool {
    (c: Coverage) => |Times(c.bars)| != |c.bars|
  }

  function AllPhases(e: Evidence): seq<Option<Coverage>> {
    [e.regular, e.premarket, e.following]
  }

  function RegularPhases(e: Evidence): seq<Option<Coverage>> {
    [e.regular, e.following]
  }

  function MissingPhases(e: Evidence): seq<string> {
    AbsentNames([Field("earnings_regular", e.regular.Some?), Field("following_premarket", e.premarket.Some?),
                 Field("following_regular", e.following.Some?)])
  }

  function Defects(e: Evidence): seq<string> {
    Flagged(RegularPhases(e), IsThin(), "_coverage")
    + Flagged(AllPhases(e), IsInvalid(), "_invalid_bar")
    + Flagged(AllPhases(e), IsRepeating(), "_duplicate_timestamp")
  }

  function Missing(e: Evidence): seq<string>
    requires Computable(e)
  {
    AbsentNames(RequiredFields(ValuesOf(e))) + Defects(e)
  }

  // ------------------------------------------------------------------ status and result

  function AvailableAfter(e: Evidence): int {
    e.followingClose + GRACE_MINUTES * MINUTE
  }

  predicate Pending(e: Evidence, now: int) {
    && now < AvailableAfter(e)
    && (e.following.None? || now < e.following.value.end || e.following.value.observed < e.following.value.expected)
  }

  function FinalStatus(e: Evidence): Status
    requires Computable(e)
  {
    if Missing(e) == [] then CompleteOutcome else InsufficientData
  }

  function StatusAt(e: Evidence, now: int): Status
    requires Computable(e)
  {
    if Pending(e, now) then NotYetAvailable else FinalStatus(e)
  }

  function TallyOf(c: Option<Coverage>, minutes: int): Tally
    requires c.Some? ==> c.value.expected > 0
  {
    if c.None? then Tally(0, minutes, 0.0) else Tally(c.value.observed, c.value.expected, Ratio(c.value))
  }

  function FlagsOf(c: Option<Coverage>): seq<string> {
    if c.None? then [] else c.value.flags
  }

  function AllFlags(e: Evidence): seq<string> {
    FlagsOf(e.regular) + FlagsOf(e.premarket) + FlagsOf(e.following)
    + Flagged(AllPhases(e), IsInvalid(), "_invalid_bar") + Flagged(AllPhases(e), IsRepeating(), "_duplicate_timestamp")
  }

  predicate BarLe(a: Bar, b: Bar) {
    if a.ts != b.ts then a.ts < b.ts
    else if a.open != b.open then a.open < b.open
    else if a.high != b.high then a.high < b.high
    else if a.low != b.low then a.low < b.low
    else if a.close != b.close then a.close < b.close
    else VolumeKey(a) <= VolumeKey(b)
  }

  function VolumeKey(b: Bar): int {
    if b.volume.Some? then b.volume.value else -1
  }

  function Canonical(c: Option<Coverage>): Option<Coverage> {
    if c.None? then None else Some(c.value.(flags := SortedSet(c.value.flags), bars := SortBy(c.value.bars, BarLe)))
  }

  /** What the evidence digest is taken of; the expected close of the session is not part of it. */
  function Preimage(e: Evidence): Evidence {
    e.(followingClose := 0, regular := Canonical(e.regular), premarket := Canonical(e.premarket),
       following := Canonical(e.following))
  }

  function OutcomeAt(e: Evidence, now: int): Result
    requires Computable(e)
  {
    Result(e.symbol, e.date, StatusAt(e, now), ValuesOf(e), TallyOf(e.regular, 390), TallyOf(e.premarket, 150),
           TallyOf(e.following, 390),
           Preimage(e), SortedSet(MissingPhases(e) + Missing(e)), SortedSet(AllFlags(e)), AvailableAfter(e))
  }

  // ------------------------------------------------------------------ the engine, step by step

  method ReadBars(c: Option<Coverage>) returns (bars: seq<Bar>)
    ensures bars == BarsOf(c)
  {
    if c.None? {
      return [];
    }
    bars := Deduplicate(c.value.bars);
  }

  method FindBar(bars: seq<Bar>, t: int) returns (found: Option<Bar>)
    ensures found == At(bars, t)
  {
    for i := 0 to |bars|
      invariant At(bars, t) == At(bars[i..], t)
    {
      if bars[i].ts == t {
        return Some(bars[i]);
      }
    }
    found := None;
  }

  method MeasurePhase(first: Option<Bar>, last: Option<Bar>, bars: seq<Bar>) returns (p: Prices)
    ensures p == Prices(OpenAt(first), Highest(bars), Lowest(bars), CloseAt(last))
  {
    var high, low: Option<real> := None, None;
    for i := 0 to |bars|
      invariant high == Highest(bars[..i]) && low == Lowest(bars[..i])
    {
      NextExtremes(bars, i);
      high := if high.None? then Some(bars[i].high) else Some(Max2(high.value, bars[i].high));
      low := if low.None? then Some(bars[i].low) else Some(Min2(low.value, bars[i].low));
    }
    assert bars[..|bars|] == bars;
    p := Prices(OpenAt(first), high, low, CloseAt(last));
  }

  lemma NextExtremes(bars: seq<Bar>, i: nat)
    requires i < |bars|
    ensures Highest(bars[..i + 1])
            == Some(if i == 0 then bars[i].high else Max2(Highest(bars[..i]).value, bars[i].high))
    ensures Lowest(bars[..i + 1]) == Some(if i == 0 then bars[i].low else Min2(Lowest(bars[..i]).value, bars[i].low))
  {
    MapNext(bars, HighOf(), i);
    MapNext(bars, LowOf(), i);
    MaxOfAppend(Map(bars[..i], HighOf()), bars[i].high);
    MinOfAppend(Map(bars[..i], LowOf()), bars[i].low);
  }

  method ReadValues(e: Evidence) returns (v: Values)
    requires Computable(e)
    ensures v == ValuesOf(e)
  {
    var premarket := ReadBars(e.premarket);
    var following := ReadBars(e.following);
    var regular := ReadBars(e.regular);
    var referenceBar: Option<Bar> := None;
    if e.regular.Some? {
      referenceBar := FindBar(regular, e.regular.value.end - MINUTE);
    }
    var openBar, closeBar: Option<Bar> := None, None;
    if e.following.Some? {
      openBar := FindBar(following, e.following.value.start);
      closeBar := FindBar(following, e.following.value.end - MINUTE);
    }
    var before := MeasurePhase(FirstBar(premarket), LastBar(premarket), premarket);
    var during := MeasurePhase(openBar, closeBar, following);
    var reference := CloseAt(referenceBar);
    var horizons := ReadHorizons(e, reference, following);
    v := Values(reference, TimeAt(referenceBar), before, TimeAt(FirstBar(premarket)), TimeAt(LastBar(premarket)),
                during,
                Returns(reference, before), Returns(reference, during), horizons);
  }

  method ReadHorizons(e: Evidence, reference: Option<real>, following: seq<Bar>)
    returns (horizons: map<int, Option<real>>)
    requires Computable(e) && reference == Reference(e) && following == BarsOf(e.following)
    ensures horizons == map[5 := HorizonReturn(e, 5), 30 := HorizonReturn(e, 30), 60 := HorizonReturn(e, 60)]
  {
    horizons := map[];
    for i := 0 to 3
      invariant horizons.Keys == set k | 0 <= k < i :: OUTCOME_HORIZONS[k]
      invariant forall m :: m in horizons ==> horizons[m] == HorizonReturn(e, m)
    {
      var minute := OUTCOME_HORIZONS[i];
      var bar: Option<Bar> := None;
      if e.following.Some? {
        bar := FindBar(following, e.following.value.start + (minute - 1) * MINUTE);
      }
      horizons := horizons[minute := Return(reference, CloseAt(bar))];
    }
    assert OUTCOME_HORIZONS[0] == 5 && OUTCOME_HORIZONS[1] == 30 && OUTCOME_HORIZONS[2] == 60;
  }

  method ListAbsent(fields: seq<Field>) returns (names: seq<string>)
    ensures names == AbsentNames(fields)
  {
    names := [];
    for i := 0 to |fields|
      invariant names == AbsentNames(fields[..i])
    {
      assert fields[..i + 1][..i] == fields[..i];
      if !fields[i].present {
        names := names + [fields[i].name];
      }
    }
    assert fields[..|fields|] == fields;
  }

  method ListFlagged(phases: seq<Option<Coverage>>, test: Coverage -> bool, suffix: string) returns (names: seq<string>)
    ensures names == Flagged(phases, test, suffix)
  {
    names := [];
    for i := 0 to |phases|
      invariant names == Flagged(phases[..i], test, suffix)
    {
      assert phases[..i + 1][..i] == phases[..i];
      if phases[i].Some? && test(phases[i].value) {
        names := names + [phases[i].value.phase + suffix];
      }
    }
    assert phases[..|phases|] == phases;
  }

  method ListMissing(e: Evidence, v: Values)
    returns (missing: seq<string>, invalid: seq<string>, duplicate: seq<string>)
    requires Computable(e) && v == ValuesOf(e)
    ensures missing == Missing(e)
    ensures invalid == Flagged(AllPhases(e), IsInvalid(), "_invalid_bar")
    ensures duplicate == Flagged(AllPhases(e), IsRepeating(), "_duplicate_timestamp")
  {
    missing := ListAbsent(RequiredFields(v));
    var incomplete := ListFlagged(RegularPhases(e), IsThin(), "_coverage");
    invalid := ListFlagged(AllPhases(e), IsInvalid(), "_invalid_bar");
    duplicate := ListFlagged(AllPhases(e), IsRepeating(), "_duplicate_timestamp");
    assert missing + incomplete + invalid + duplicate == missing + (incomplete + invalid + duplicate);
    missing := missing + incomplete + invalid + duplicate;
  }

  method DecideStatus(e: Evidence, now: int, availableAfter: int, missing: seq<string>) returns (status: Status)
    requires Computable(e) && availableAfter == AvailableAfter(e) && missing == Missing(e)
    ensures status == StatusAt(e, now)
  {
    if now < availableAfter
      && (e.following.None? || now < e.following.value.end || e.following.value.observed < e.following.value.expected) {
      status := NotYetAvailable;
    } else if missing != [] {
      status := InsufficientData;
    } else {
      status := CompleteOutcome;
    }
  }

  method ComputeOutcome(e: Evidence, now: int) returns (r: Result)
    requires Computable(e)
    ensures r == OutcomeAt(e, now)
  {
    var v := ReadValues(e);
    var phases := ListAbsent(
      [Field("earnings_regular", e.regular.Some?), Field("following_premarket", e.premarket.Some?),
       Field("following_regular", e.following.Some?)]);
    var missing, invalid, duplicate := ListMissing(e, v);
    var availableAfter := e.followingClose + GRACE_MINUTES * MINUTE;
    var status := DecideStatus(e, now, availableAfter, missing);
    var flags := FlagsOf(e.regular) + FlagsOf(e.premarket) + FlagsOf(e.following) + invalid + duplicate;
    r := Result(e.symbol, e.date, status, v, TallyOf(e.regular, 390), TallyOf(e.premarket, 150),
                TallyOf(e.following, 390),
                Preimage(e), SortedSet(phases + missing), SortedSet(flags), availableAfter);
  }
}
