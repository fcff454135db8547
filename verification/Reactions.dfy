/** The after-hours reaction engine: one event's evidence in, one set of features out.
    `Features` says what the engine computes; the methods compute it the way the
    program does, gate by gate and loop by loop. */
module Reactions {
  import opened Sequences
  import opened Bars

  const REACTION_THRESHOLD_PCT: real := 2.0
  const DELAYED_AFTER_MINUTES: int := 15
  const MIN_POSTMARKET_BARS: int := 5
  const HORIZONS_MINUTES: seq<int> := [1, 5, 15, 30, 60, 105]
  const STUDY_MINUTES: int := 105
  const MAX_CHECKPOINT_CARRY_MINUTES: int := 10
  const FADE_RETRACEMENT_PCT: real := 50.0
  const DETECTOR_VERSION: string := "fixed-preclose-2pct-v1"
  const CLASSIFIER_VERSION: string := "path-retention-v1"
  const VOLUME_UNAVAILABLE: string := "volume_unavailable_for_vwap"
  const FATAL_QUALITY_FLAGS: seq<string> :=
    ["duplicate_minute_bars", "no_bars_in_requested_phase", "no_bars_returned"]

  datatype Classification =
    | Continuation
    | Fade
    | Delayed
    | Whipsaw
    | NoMeaningful
    | InsufficientData

  datatype Phase = Regular | Postmarket

  datatype Defect = NonPositivePrice | InvalidBounds | HighBelowLow | BadVolume

  /** The sign a return is multiplied by: the side the signal moved to. */
  datatype Direction = Up | Down

  function Directed(d: Direction, x: real): real {
    if d.Up? then x else -x
  }

  /** Why an event carries no reaction. */
  datatype Reason =
    | MissingCoverage
    | MissingPhaseBounds
    | InvalidPhaseBounds
    | StaleResponse
    | FatalFlags(flags: seq<string>)
    | EarlyClose
    | InvalidBar(phase: Phase, defect: Defect)
    | RegularBarOutside
    | PostmarketBarOutside
    | DuplicateTimestamp
    | CoverageEndsEarly
    | NoRegularBars
    | TooFewPostmarketBars
    | FinalMinuteMissing
    | BadPreClose
    | Incomplete(checkpoints: seq<int>, zeroVolume: bool)
    | NoPostSignalBar
    | NoTrigger

  datatype QualityFlag = Recorded(text: string) | CarriedForward(minutes: int, age: int)

  /** `opensAtFour` stands for the Eastern wall-clock test on the postmarket start. */
  datatype EventEvidence = EventEvidence(
    symbol: string,
    earningsDate: int,
    regularCovered: bool,
    postmarketCovered: bool,
    regularStart: Option<int>,
    regularEnd: Option<int>,
    postmarketStart: Option<int>,
    postmarketEnd: Option<int>,
    opensAtFour: bool,
    regularBars: seq<Bar>,
    postmarketBars: seq<Bar>,
    flags: seq<string>,
    regularMode: Option<string>,
    postmarketMode: Option<string>,
    regularHash: Option<string>,
    postmarketHash: Option<string>,
    regularStale: bool,
    postmarketStale: bool,
    regularReceivedAt: Option<int>,
    postmarketReceivedAt: Option<int>)

  /** What the fixed study window shows, whether or not a signal fired in it. */
  datatype Measures = Measures(
    preClose: Option<real>,
    horizonReturns: map<int, Option<real>>,
    cumulativeVolume: map<int, Option<int>>,
    vwapProxy: Option<real>,
    volumeAvailable: bool,
    windowHigh: Option<real>,
    windowLow: Option<real>,
    analyzedThrough: Option<int>)

  datatype Signal = Signal(
    timestamp: Option<int>,
    delay: Option<int>,
    initialReturn: Option<real>,
    maxFavorable: Option<real>,
    maxAdverse: Option<real>,
    retracement: Option<real>)

  const NO_SIGNAL: Signal := Signal(None, None, None, None, None, None)

  datatype Coverage = Coverage(observed: int, missing: int, ratio: real)

  datatype Provenance = Provenance(
    detectorVersion: string,
    classifierVersion: string,
    regularMode: Option<string>,
    postmarketMode: Option<string>,
    regularHash: Option<string>,
    postmarketHash: Option<string>,
    regularStale: bool,
    postmarketStale: bool)

  datatype ReactionFeatures = ReactionFeatures(
    symbol: string,
    earningsDate: int,
    classification: Classification,
    measures: Measures,
    signal: Signal,
    coverage: Coverage,
    flags: seq<QualityFlag>,
    provenance: Provenance,
    reason: Option<Reason>)

  // ------------------------------------------------------------------ small rules

  predicate StaleIsFatal(stale: bool, receivedAt: Option<int>, phaseEnd: int) {
    stale && (receivedAt.None? || receivedAt.value < phaseEnd)
  }

  /** The latest bar at or before `target`, with its age, unless it is too old to carry. */
  function Checkpoint(bars: seq<Bar>, target: int): Option<(Bar, int)> {
    if bars == [] then None
    else
      var last := bars[|bars| - 1];
      if last.ts > target then Checkpoint(bars[..|bars| - 1], target)
      else
        var age := (target - last.ts) / MINUTE;
        if age <= MAX_CHECKPOINT_CARRY_MINUTES then Some((last, age)) else None
  }

  method CheckpointBar(bars: seq<Bar>, target: int) returns (found: Option<(Bar, int)>)
    ensures found == Checkpoint(bars, target)
  {
    var i := |bars|;
    assert bars[..i] == bars;
    while i > 0
      invariant 0 <= i <= |bars|
      invariant Checkpoint(bars, target) == Checkpoint(bars[..i], target)
    {
      assert bars[..i][..i - 1] == bars[..i - 1];
      i := i - 1;
      if bars[i].ts <= target {
        var age := (target - bars[i].ts) / MINUTE;
        return if age <= MAX_CHECKPOINT_CARRY_MINUTES then Some((bars[i], age)) else None;
      }
    }
    return None;
  }

  function VolumeOf(b: Bar): int {
    if b.volume.Some? then b.volume.value else 0
  }

  function TypicalPrice(b: Bar): real {
    (b.high + b.low + b.close) / 3.0
  }

  function TotalVolume(bars: seq<Bar>): int {
    if bars == [] then 0 else VolumeOf(bars[0]) + TotalVolume(bars[1..])
  }

  function WeightedPrice(bars: seq<Bar>): real {
    if bars == [] then 0.0
    else TypicalPrice(bars[0]) * (VolumeOf(bars[0]) as real) + WeightedPrice(bars[1..])
  }

  predicate HasVolume(b: Bar) {
    b.volume.Some? && b.volume.value > 0
  }

  function VwapProxy(bars: seq<Bar>): Option<real> {
    var traded := Filter(bars, HasVolume);
    var total := TotalVolume(traded);
    if total <= 0 then None else Some(WeightedPrice(traded) / (total as real))
  }

  function InWindow(lo: int, hi: int): Bar -> bool {
    (b: Bar) => lo <= b.ts < hi
  }

  function UpTo(target: int): Bar -> bool {
    (b: Bar) => b.ts <= target
  }

  function CoverageOf(observed: int): Coverage {
    Coverage(observed, STUDY_MINUTES - observed, observed as real / STUDY_MINUTES as real)
  }

  /** Distinct observed minutes of the study window, from the raw evidence. */
  function StudyCoverage(e: EventEvidence): Coverage {
    if e.postmarketStart.None? then CoverageOf(0)
    else
      var start := e.postmarketStart.value;
      var times := set b | b in e.postmarketBars && start <= b.ts < start + STUDY_MINUTES * MINUTE :: b.ts;
      CoverageOf(if |times| < STUDY_MINUTES then |times| else STUDY_MINUTES)
  }

  function BarDefect(b: Bar): Option<Defect> {
    if b.open <= 0.0 || b.high <= 0.0 || b.low <= 0.0 || b.close <= 0.0 then Some(NonPositivePrice)
    else if b.low > Min2(b.open, b.close) || b.high < Max2(b.open, b.close) then Some(InvalidBounds)
    else if b.high < b.low then Some(HighBelowLow)
    else if b.volume.None? || b.volume.value < 0 then Some(BadVolume)
    else None
  }

  function FirstDefect(bars: seq<Bar>): Option<Defect> {
    if bars == [] then None
    else if BarDefect(bars[0]).Some? then BarDefect(bars[0])
    else FirstDefect(bars[1..])
  }

  method InvalidBarReason(bars: seq<Bar>) returns (defect: Option<Defect>)
    ensures defect == FirstDefect(bars)
  {
    for i := 0 to |bars|
      invariant FirstDefect(bars) == FirstDefect(bars[i..])
    {
      assert bars[i..][1..] == bars[i + 1..];
      if BarDefect(bars[i]).Some? {
        return BarDefect(bars[i]);
      }
    }
    return None;
  }

  function IsFatal(): string -> bool {
    (flag: string) => flag in FATAL_QUALITY_FLAGS
  }

  function RecordedFlag(text: string): QualityFlag {
    Recorded(text)
  }

  const NO_MEASURES: Measures :=
    Measures(None, map m | m in HORIZONS_MINUTES :: None, map m | m in HORIZONS_MINUTES :: None,
             None, false, None, None, None)

  function ProvenanceOf(e: EventEvidence): Provenance {
    Provenance(DETECTOR_VERSION, CLASSIFIER_VERSION, e.regularMode, e.postmarketMode,
               e.regularHash, e.postmarketHash, e.regularStale, e.postmarketStale)
  }

  /** A result that carries no reaction, with whatever was measured before it stopped. */
  function Insufficient(e: EventEvidence, measures: Measures, flags: seq<QualityFlag>,
                        reason: Reason): ReactionFeatures {
    ReactionFeatures(e.symbol, e.earningsDate, InsufficientData, measures, NO_SIGNAL, StudyCoverage(e),
                     flags, ProvenanceOf(e), Some(reason))
  }

  function EmptyFeatures(e: EventEvidence, reason: Reason): ReactionFeatures {
    Insufficient(e, NO_MEASURES, Map(e.flags, RecordedFlag), reason)
  }

  // ------------------------------------------------------------------ gates

  predicate HasBounds(e: EventEvidence) {
    e.regularStart.Some? && e.regularEnd.Some? && e.postmarketStart.Some? && e.postmarketEnd.Some?
  }

  /** Gates that never look at a bar. */
  function CoverageRejection(e: EventEvidence): (r: Option<Reason>)
    ensures r.None? ==>
              && HasBounds(e)
              && e.regularStart.value < e.regularEnd.value == e.postmarketStart.value < e.postmarketEnd.value
  {
    if !e.regularCovered || !e.postmarketCovered then Some(MissingCoverage)
    else if !HasBounds(e) then Some(MissingPhaseBounds)
    else if e.regularStart.value >= e.regularEnd.value
            || e.postmarketStart.value >= e.postmarketEnd.value
            || e.regularEnd.value != e.postmarketStart.value then Some(InvalidPhaseBounds)
    else if StaleIsFatal(e.regularStale, e.regularReceivedAt, e.regularEnd.value)
            || StaleIsFatal(e.postmarketStale, e.postmarketReceivedAt, e.postmarketEnd.value) then Some(StaleResponse)
    else if Filter(e.flags, IsFatal()) != [] then Some(FatalFlags(SortedSet(Filter(e.flags, IsFatal()))))
    else if !e.opensAtFour then Some(EarlyClose)
    else None
  }

  function DefectRejection(e: EventEvidence): Option<Reason> {
    if FirstDefect(e.regularBars).Some? then Some(InvalidBar(Regular, FirstDefect(e.regularBars).value))
    else if FirstDefect(e.postmarketBars).Some? then Some(InvalidBar(Postmarket, FirstDefect(e.postmarketBars).value))
    else None
  }

  function StudyEnd(e: EventEvidence): int
    requires HasBounds(e)
  {
    e.postmarketStart.value + STUDY_MINUTES * MINUTE
  }

  function StudyBars(e: EventEvidence): seq<Bar>
    requires HasBounds(e)
  {
    Filter(Deduplicated(e.postmarketBars), InWindow(e.postmarketStart.value, StudyEnd(e)))
  }

  function PreCloseBar(e: EventEvidence): Option<Bar>
    requires HasBounds(e)
  {
    At(Deduplicated(e.regularBars), e.regularEnd.value - MINUTE)
  }

  /** Gates on the bars themselves, after every bar was found well formed. */
  function BarsRejection(e: EventEvidence): (r: Option<Reason>)
    requires HasBounds(e)
    ensures r.None?
            ==> PreCloseBar(e).Some? && PreCloseBar(e).value.close > 0.0 && |StudyBars(e)| >= MIN_POSTMARKET_BARS
  {
    var regular := Deduplicated(e.regularBars);
    var postmarket := Deduplicated(e.postmarketBars);
    if exists b :: b in e.regularBars && !(e.regularStart.value <= b.ts < e.regularEnd.value) then
      Some(RegularBarOutside)
    else if exists b :: b in e.postmarketBars && !(e.postmarketStart.value <= b.ts < e.postmarketEnd.value) then
      Some(PostmarketBarOutside)
    else if |regular| != |e.regularBars| || |postmarket| != |e.postmarketBars| then Some(DuplicateTimestamp)
    else if StudyEnd(e) > e.postmarketEnd.value then Some(CoverageEndsEarly)
    else if regular == [] then Some(NoRegularBars)
    else if |StudyBars(e)| < MIN_POSTMARKET_BARS then Some(TooFewPostmarketBars)
    else if PreCloseBar(e).None? then Some(FinalMinuteMissing)
    else if PreCloseBar(e).value.close <= 0.0 then Some(BadPreClose)
    else None
  }

  function Rejection(e: EventEvidence): (r: Option<Reason>)
    ensures r.None? ==>
              && HasBounds(e)
              && PreCloseBar(e).Some? && PreCloseBar(e).value.close > 0.0
              && |StudyBars(e)| >= MIN_POSTMARKET_BARS
  {
    if CoverageRejection(e).Some? then CoverageRejection(e)
    else if DefectRejection(e).Some? then DefectRejection(e)
    else BarsRejection(e)
  }

  predicate Accepted(e: EventEvidence) {
    Rejection(e).None?
  }

  function PreClose(e: EventEvidence): (p: real)
    requires Accepted(e)
    ensures p > 0.0
  {
    PreCloseBar(e).value.close
  }

  // ------------------------------------------------------------------ measurements

  function HighReturn(p: real): Bar -> real
    requires p != 0.0
  {
    (b: Bar) => PctChange(p, b.high)
  }

  function LowReturn(p: real): Bar -> real
    requires p != 0.0
  {
    (b: Bar) => PctChange(p, b.low)
  }

  function CloseReturn(p: real): Bar -> real
    requires p != 0.0
  {
    (b: Bar) => PctChange(p, b.close)
  }

  /** The better and worse extreme of a bar for a position taken in `direction`. */
  function DirectionalHigh(p: real, direction: Direction): Bar -> real
    requires p != 0.0
  {
    (b: Bar) => Max2(Directed(direction, PctChange(p, b.high)), Directed(direction, PctChange(p, b.low)))
  }

  function DirectionalLow(p: real, direction: Direction): Bar -> real
    requires p != 0.0
  {
    (b: Bar) => Min2(Directed(direction, PctChange(p, b.high)), Directed(direction, PctChange(p, b.low)))
  }

  function Target(start: int, minutes: int): int {
    start + (minutes - 1) * MINUTE
  }

  function HorizonReturn(p: real, start: int, study: seq<Bar>, minutes: int): Option<real>
    requires p != 0.0
  {
    match Checkpoint(study, Target(start, minutes))
    case None => None
    case Some((bar, _)) => Some(PctChange(p, bar.close))
  }

  function HorizonReturns(p: real, start: int, study: seq<Bar>): map<int, Option<real>>
    requires p != 0.0
  {
    map m | m in HORIZONS_MINUTES :: HorizonReturn(p, start, study, m)
  }

  function CarryFlag(start: int, study: seq<Bar>, minutes: int): seq<QualityFlag> {
    match Checkpoint(study, Target(start, minutes))
    case None => []
    case Some((_, age)) => if age != 0 then [CarriedForward(minutes, age)] else []
  }

  function CarryFlags(start: int, study: seq<Bar>, horizons: seq<int>): seq<QualityFlag> {
    if horizons == [] then []
    else CarryFlags(start, study, horizons[..|horizons| - 1]) + CarryFlag(start, study, horizons[|horizons| - 1])
  }

  function VolumeUpTo(start: int, study: seq<Bar>, minutes: int): int {
    TotalVolume(Filter(study, UpTo(Target(start, minutes))))
  }

  function CumulativeVolumes(start: int, study: seq<Bar>): map<int, Option<int>> {
    map m | m in HORIZONS_MINUTES :: Some(VolumeUpTo(start, study, m))
  }

  function MissingAt(p: real, start: int, study: seq<Bar>): int -> bool
    requires p != 0.0
  {
    (m: int) => HorizonReturn(p, start, study, m).None?
  }

  /** The first position whose close moved at least the threshold either way. */
  function TriggerIndex(closes: seq<real>): (i: nat)
    ensures i <= |closes|
    ensures i < |closes| ==> Abs(closes[i]) >= REACTION_THRESHOLD_PCT
    ensures forall k :: 0 <= k < i ==> Abs(closes[k]) < REACTION_THRESHOLD_PCT
  {
    if closes == [] then 0
    else if Abs(closes[0]) >= REACTION_THRESHOLD_PCT then 0
    else 1 + TriggerIndex(closes[1..])
  }

  /** Share of the best favorable move given back by the end of the window, in percent. */
  function Retracement(favorable: real, terminal: real): Option<real> {
    if favorable > 0.0 then Some(Max2(0.0, (favorable - terminal) / favorable * 100.0)) else None
  }

  /** Everything read off the bars after a confirmed signal. */
  datatype Path = Path(
    initial: real,
    direction: Direction,
    favorable: real,
    adverse: real,
    terminal: real,
    whipsaw: bool,
    delay: int)

  function DelayMinutes(start: int, signal: int): int {
    var elapsed := (signal - start) / MINUTE;
    if elapsed < 0 then 0 else elapsed
  }

  function PathFrom(closes: seq<real>, k: nat, highs: seq<real>, lows: seq<real>, delay: int): Path
    requires k < |closes| && highs != [] && lows != []
  {
    var d := SignalDirection(closes[k]);
    Path(
      closes[k],
      d,
      Max2(0.0, Max2(Directed(d, closes[k]), MaxOf(highs))),
      Min2(0.0, Min2(Directed(d, closes[k]), MinOf(lows))),
      Directed(d, closes[|closes| - 1]),
      MaxOf(closes[k..]) >= REACTION_THRESHOLD_PCT && MinOf(closes[k..]) <= -REACTION_THRESHOLD_PCT,
      delay)
  }

  function SignalDirection(initial: real): Direction {
    if initial > 0.0 then Up else Down
  }

  function PathOf(p: real, start: int, study: seq<Bar>, k: nat): Path
    requires p != 0.0 && k + 1 < |study|
  {
    var closes := Map(study, CloseReturn(p));
    var d := SignalDirection(closes[k]);
    var after := study[k + 1..];
    PathFrom(closes, k, Map(after, DirectionalHigh(p, d)), Map(after, DirectionalLow(p, d)),
             DelayMinutes(start, study[k].ts + MINUTE))
  }

  function Classify(path: Path): Classification {
    var retracement := Retracement(path.favorable, path.terminal);
    if path.whipsaw then Whipsaw
    else if retracement.Some? && retracement.value > FADE_RETRACEMENT_PCT then Fade
    else if path.delay >= DELAYED_AFTER_MINUTES then Delayed
    else Continuation
  }

  function SignalOf(path: Path, timestamp: int): Signal {
    Signal(Some(timestamp), Some(path.delay), Some(path.initial), Some(path.favorable), Some(path.adverse),
           Retracement(path.favorable, path.terminal))
  }

  /** The measured part shared by every event that passed the gates. */
  function MeasuresOf(p: real, start: int, study: seq<Bar>): Measures
    requires p != 0.0 && study != []
  {
    Measures(
      Some(p),
      HorizonReturns(p, start, study),
      CumulativeVolumes(start, study),
      VwapProxy(study),
      VwapProxy(study).Some?,
      Some(MaxOf(Map(study, HighReturn(p)))),
      Some(MinOf(Map(study, LowReturn(p)))),
      Some(study[|study| - 1].ts))
  }

  function FlagsOf(recorded: seq<string>, start: int, study: seq<Bar>): seq<QualityFlag> {
    var carried := Map(recorded, RecordedFlag) + CarryFlags(start, study, HORIZONS_MINUTES);
    if VwapProxy(study).None? && Recorded(VOLUME_UNAVAILABLE) !in carried then carried + [Recorded(VOLUME_UNAVAILABLE)]
    else carried
  }

  function MissingCheckpoints(p: real, start: int, study: seq<Bar>): seq<int>
    requires p != 0.0
  {
    Filter(HORIZONS_MINUTES, MissingAt(p, start, study))
  }

  /** The verdict once the window was measured: which class, which signal, or why neither. */
  datatype Verdict = Verdict(classification: Classification, signal: Signal, reason: Option<Reason>)

  function Confirmed(path: Path, timestamp: int): Verdict {
    Verdict(Classify(path), SignalOf(path, timestamp), None)
  }

  /** The verdict on a complete window whose first move is at `k`, or nowhere. */
  function TriggerVerdict(p: real, start: int, study: seq<Bar>, k: nat): Verdict
    requires p != 0.0 && k <= |study|
  {
    if k == |study| then Verdict(NoMeaningful, NO_SIGNAL, Some(NoTrigger))
    else if k + 1 == |study| then Verdict(InsufficientData, NO_SIGNAL, Some(NoPostSignalBar))
    else Confirmed(PathOf(p, start, study, k), study[k].ts + MINUTE)
  }

  function VerdictOf(p: real, start: int, study: seq<Bar>): Verdict
    requires p != 0.0
  {
    var missing := MissingCheckpoints(p, start, study);
    if missing != [] || VwapProxy(study).None? then
      Verdict(InsufficientData, NO_SIGNAL, Some(Incomplete(missing, VwapProxy(study).None?)))
    else TriggerVerdict(p, start, study, TriggerIndex(Map(study, CloseReturn(p))))
  }

  function Features(e: EventEvidence): ReactionFeatures {
    if Rejection(e).Some? then EmptyFeatures(e, Rejection(e).value)
    else Reacted(e, PreClose(e), e.postmarketStart.value, StudyBars(e))
  }

  function Reacted(e: EventEvidence, p: real, start: int, study: seq<Bar>): ReactionFeatures
    requires p != 0.0 && study != []
  {
    Assembled(e, |study|, MeasuresOf(p, start, study), FlagsOf(e.flags, start, study), VerdictOf(p, start, study))
  }

  function Assembled(e: EventEvidence, observed: int, measures: Measures, flags: seq<QualityFlag>,
                     v: Verdict): ReactionFeatures {
    ReactionFeatures(
      e.symbol, e.earningsDate, v.classification, measures, v.signal,
      if v.classification.InsufficientData? then StudyCoverage(e) else CoverageOf(observed),
      flags, ProvenanceOf(e), v.reason)
  }

  // ------------------------------------------------------------------ the engine

  method FindTrigger(closes: seq<real>) returns (k: nat)
    ensures k == TriggerIndex(closes)
  {
    k := 0;
    while k < |closes| && Abs(closes[k]) < REACTION_THRESHOLD_PCT
      invariant k <= |closes|
      invariant TriggerIndex(closes) == k + TriggerIndex(closes[k..])
    {
      assert closes[k..][1..] == closes[k + 1..];
      k := k + 1;
    }
  }

  method MeasureHorizon(p: real, start: int, study: seq<Bar>, minutes: int)
    returns (value: Option<real>, carried: seq<QualityFlag>)
    requires p != 0.0
    ensures && value == HorizonReturn(p, start, study, minutes)
            && carried == CarryFlag(start, study, minutes)
  {
    value, carried := None, [];
    var found := CheckpointBar(study, Target(start, minutes));
    if found.Some? {
      var (bar, age) := found.value;
      value := Some(PctChange(p, bar.close));
      if age != 0 {
        carried := [CarriedForward(minutes, age)];
      }
    }
  }

  method FixedHorizons(p: real, start: int, study: seq<Bar>, recorded: seq<QualityFlag>)
    returns (measured: map<int, Option<real>>, flags: seq<QualityFlag>)
    requires p != 0.0
    ensures measured == HorizonReturns(p, start, study)
    ensures flags == recorded + CarryFlags(start, study, HORIZONS_MINUTES)
  {
    measured, flags := MeasureHorizons(p, start, study, recorded, HORIZONS_MINUTES);
  }

  method MeasureHorizons(p: real, start: int, study: seq<Bar>, recorded: seq<QualityFlag>, horizons: seq<int>)
    returns (measured: map<int, Option<real>>, flags: seq<QualityFlag>)
    requires p != 0.0
    ensures measured == map m | m in horizons :: HorizonReturn(p, start, study, m)
    ensures flags == recorded + CarryFlags(start, study, horizons)
  {
    measured := map[];
    flags := recorded;
    for i := 0 to |horizons|
      invariant measured == map m | m in horizons[..i] :: HorizonReturn(p, start, study, m)
      invariant flags == recorded + CarryFlags(start, study, horizons[..i])
    {
      assert horizons[..i + 1] == horizons[..i] + [horizons[i]];
      assert horizons[..i + 1][..i] == horizons[..i];
      var value, carried := MeasureHorizon(p, start, study, horizons[i]);
      measured := measured[horizons[i] := value];
      flags := flags + carried;
    }
    assert horizons[..|horizons|] == horizons;
  }

  /** Direction-adjusted extremes of the bars after the signal. */
  method PathExtremes(p: real, direction: Direction, path: seq<Bar>) returns (highs: seq<real>, lows: seq<real>)
    requires p != 0.0
    ensures highs == Map(path, DirectionalHigh(p, direction))
    ensures lows == Map(path, DirectionalLow(p, direction))
  {
    highs, lows := [], [];
    for i := 0 to |path|
      invariant |highs| == |lows| == i
      invariant forall j :: 0 <= j < i ==> highs[j] == DirectionalHigh(p, direction)(path[j])
      invariant forall j :: 0 <= j < i ==> lows[j] == DirectionalLow(p, direction)(path[j])
    {
      var highReturn := PctChange(p, path[i].high);
      var lowReturn := PctChange(p, path[i].low);
      var high := Max2(Directed(direction, highReturn), Directed(direction, lowReturn));
      var low := Min2(Directed(direction, highReturn), Directed(direction, lowReturn));
      assert high == DirectionalHigh(p, direction)(path[i]);
      assert low == DirectionalLow(p, direction)(path[i]);
      highs, lows := highs + [high], lows + [low];
    }
    MapAt(path, DirectionalHigh(p, direction));
    MapAt(path, DirectionalLow(p, direction));
  }

  method Screen(e: EventEvidence) returns (reason: Option<Reason>)
    ensures reason == Rejection(e)
  {
    if CoverageRejection(e).Some? {
      return CoverageRejection(e);
    }
    var regularDefect := InvalidBarReason(e.regularBars);
    if regularDefect.Some? {
      return Some(InvalidBar(Regular, regularDefect.value));
    }
    var postmarketDefect := InvalidBarReason(e.postmarketBars);
    if postmarketDefect.Some? {
      return Some(InvalidBar(Postmarket, postmarketDefect.value));
    }
    reason := ScreenBars(e);
  }

  /** The checks left once coverage and the single bars are sound. */
  method ScreenBars(e: EventEvidence) returns (reason: Option<Reason>)
    requires CoverageRejection(e).None?
    ensures reason == BarsRejection(e)
  {
    if exists b :: b in e.regularBars && !(e.regularStart.value <= b.ts < e.regularEnd.value) {
      return Some(RegularBarOutside);
    }
    if exists b :: b in e.postmarketBars && !(e.postmarketStart.value <= b.ts < e.postmarketEnd.value) {
      return Some(PostmarketBarOutside);
    }
    var regular := Deduplicate(e.regularBars);
    var postmarket := Deduplicate(e.postmarketBars);
    if |regular| != |e.regularBars| || |postmarket| != |e.postmarketBars| {
      return Some(DuplicateTimestamp);
    }
    if StudyEnd(e) > e.postmarketEnd.value {
      return Some(CoverageEndsEarly);
    }
    var study := Filter(postmarket, InWindow(e.postmarketStart.value, StudyEnd(e)));
    if regular == [] {
      return Some(NoRegularBars);
    }
    if |study| < MIN_POSTMARKET_BARS {
      return Some(TooFewPostmarketBars);
    }
    var preCloseBar := At(regular, e.regularEnd.value - MINUTE);
    if preCloseBar.None? {
      return Some(FinalMinuteMissing);
    }
    if preCloseBar.value.close <= 0.0 {
      return Some(BadPreClose);
    }
    return None;
  }

  method FollowSignal(p: real, start: int, study: seq<Bar>, closes: seq<real>, k: nat) returns (path: Path)
    requires p != 0.0 && k + 1 < |study| && closes == Map(study, CloseReturn(p))
    ensures path == PathOf(p, start, study, k)
  {
    var highs, lows := PathExtremes(p, SignalDirection(closes[k]), study[k + 1..]);
    path := PathFrom(closes, k, highs, lows, DelayMinutes(start, study[k].ts + MINUTE));
  }

  method Judge(p: real, start: int, study: seq<Bar>) returns (verdict: Verdict)
    requires p != 0.0
    ensures verdict == VerdictOf(p, start, study)
  {
    var missing := MissingCheckpoints(p, start, study);
    var vwap := VwapProxy(study);
    if missing != [] || vwap.None? {
      return Verdict(InsufficientData, NO_SIGNAL, Some(Incomplete(missing, vwap.None?)));
    }
    var closes := Map(study, CloseReturn(p));
    var k := FindTrigger(closes);
    if k == |study| {
      return Verdict(NoMeaningful, NO_SIGNAL, Some(NoTrigger));
    }
    var after := study[k + 1..];
    if after == [] {
      return Verdict(InsufficientData, NO_SIGNAL, Some(NoPostSignalBar));
    }
    var path := FollowSignal(p, start, study, closes, k);
    verdict := Confirmed(path, study[k].ts + MINUTE);
  }

  method MeasureWindow(p: real, start: int, study: seq<Bar>, recorded: seq<string>)
    returns (measures: Measures, flags: seq<QualityFlag>)
    requires p != 0.0 && study != []
    ensures && measures == MeasuresOf(p, start, study)
            && flags == FlagsOf(recorded, start, study)
  {
    var horizonReturns;
    horizonReturns, flags := FixedHorizons(p, start, study, Map(recorded, RecordedFlag));
    var vwap := VwapProxy(study);
    if vwap.None? && Recorded(VOLUME_UNAVAILABLE) !in flags {
      flags := flags + [Recorded(VOLUME_UNAVAILABLE)];
    }
    measures := Measures(
      Some(p), horizonReturns, CumulativeVolumes(start, study), vwap, vwap.Some?,
      Some(MaxOf(Map(study, HighReturn(p)))), Some(MinOf(Map(study, LowReturn(p)))), Some(study[|study| - 1].ts));
  }

  method ComputeReactionFeatures(e: EventEvidence) returns (f: ReactionFeatures)
    ensures f == Features(e)
  {
    var rejected := Screen(e);
    if rejected.Some? {
      return EmptyFeatures(e, rejected.value);
    }
    var p, start := PreClose(e), e.postmarketStart.value;
    var postmarket := Deduplicate(e.postmarketBars);
    var study := Filter(postmarket, InWindow(start, StudyEnd(e)));
    var measures, flags := MeasureWindow(p, start, study, e.flags);
    var verdict := Judge(p, start, study);
    f := Assembled(e, |study|, measures, flags, verdict);
  }
}
