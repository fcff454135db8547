/** The stored feature row: how a computed result is mapped onto it, the table's CHECK
    constraints, and exactly when the two fit together. */
module FeatureRow {
  import opened Sequences
  import opened Bars
  import opened Reactions
  import opened ReactionLaws
  import opened ReactionEnvelope

  const FEATURE_VERSION: string := "earnings-reaction-v3"
  const ALGORITHM_NAME: string := "earnings_postmarket_reaction"
  const COLLECTION_MODES: seq<string> := ["scheduled_capture", "historical_backfill"]

  datatype Status = Complete | NoTriggerInWindow | InsufficientStatus

  datatype RowDirection = UpRow | DownRow | FlatRow

  /** The columns the status constraint counts. */
  datatype Numbers = Numbers(
    referencePrice: Option<real>,
    initialReturn: Option<real>,
    returns1: Option<real>, returns5: Option<real>, returns15: Option<real>,
    returns30: Option<real>, returns60: Option<real>, returns105: Option<real>,
    windowHigh: Option<real>,
    windowLow: Option<real>,
    maxFavorable: Option<real>,
    maxAdverse: Option<real>,
    maxRetracement: Option<real>,
    vwapProxy: Option<real>,
    volume1: Option<int>, volume5: Option<int>, volume15: Option<int>,
    volume30: Option<int>, volume60: Option<int>, volume105: Option<int>)

  datatype Column =
    | ReferencePrice | InitialReturn
    | Return1 | Return5 | Return15 | Return30 | Return60 | Return105
    | WindowHighReturn | WindowLowReturn
    | MaxFavorable | MaxAdverse | MaxRetracement | ReactionVwap
    | Volume1 | Volume5 | Volume15 | Volume30 | Volume60 | Volume105

  const NUMERIC_FIELDS: seq<Column> := [
    ReferencePrice, InitialReturn, Return1, Return5, Return15, Return30, Return60, Return105,
    WindowHighReturn, WindowLowReturn, MaxFavorable, MaxAdverse, MaxRetracement, ReactionVwap,
    Volume1, Volume5, Volume15, Volume30, Volume60, Volume105]

  function IsNull(n: Numbers): Column -> bool {
    (c: Column) =>
      match c
      case ReferencePrice => n.referencePrice.None?
      case InitialReturn => n.initialReturn.None?
      case Return1 => n.returns1.None?
      case Return5 => n.returns5.None?
      case Return15 => n.returns15.None?
      case Return30 => n.returns30.None?
      case Return60 => n.returns60.None?
      case Return105 => n.returns105.None?
      case WindowHighReturn => n.windowHigh.None?
      case WindowLowReturn => n.windowLow.None?
      case MaxFavorable => n.maxFavorable.None?
      case MaxAdverse => n.maxAdverse.None?
      case MaxRetracement => n.maxRetracement.None?
      case ReactionVwap => n.vwapProxy.None?
      case Volume1 => n.volume1.None?
      case Volume5 => n.volume5.None?
      case Volume15 => n.volume15.None?
      case Volume30 => n.volume30.None?
      case Volume60 => n.volume60.None?
      case Volume105 => n.volume105.None?
  }

  function One<T>(o: Option<T>): int {
    if o.Some? then 1 else 0
  }

  function NumNonNulls(n: Numbers): int {
    One(n.referencePrice) + One(n.initialReturn)
    + One(n.returns1) + One(n.returns5) + One(n.returns15) + One(n.returns30) + One(n.returns60) + One(n.returns105)
    + One(n.windowHigh) + One(n.windowLow)
    + One(n.maxFavorable) + One(n.maxAdverse) + One(n.maxRetracement) + One(n.vwapProxy)
    + One(n.volume1) + One(n.volume5) + One(n.volume15) + One(n.volume30) + One(n.volume60) + One(n.volume105)
  }

  function MissingFields(n: Numbers): seq<Column> {
    Filter(NUMERIC_FIELDS, IsNull(n))
  }

  datatype Window = Window(start: Option<int>, end: Option<int>, featureCutoff: Option<int>, labelCutoff: Option<int>)

  /** What the evidence digest is taken over. */
  datatype EvidencePreimage = EvidencePreimage(
    symbol: string, earningsDate: int,
    regularHash: Option<string>, postmarketHash: Option<string>,
    regularStart: Option<int>, regularEnd: Option<int>, postmarketStart: Option<int>, postmarketEnd: Option<int>,
    regularBars: seq<Bar>, postmarketBars: seq<Bar>)

  datatype Verdicted = Verdicted(
    status: Status,
    reason: Option<Reason>,
    reactionClass: Option<Classification>,
    direction: Option<RowDirection>,
    timestamp: Option<int>,
    delay: Option<int>,
    missingFields: seq<Column>)

  datatype StoredRow = StoredRow(
    symbol: string,
    earningsDate: int,
    featureVersion: string,
    algorithmName: string,
    verdict: Verdicted,
    window: Window,
    numbers: Numbers,
    sourceBarCount: int,
    coverage: Coverage,
    provenance: Provenance,
    evidence: EvidencePreimage,
    flags: seq<QualityFlag>)

  // ------------------------------------------------------------------ building the row

  function EvidenceDigest(e: EventEvidence): EvidencePreimage {
    EvidencePreimage(e.symbol, e.earningsDate, e.regularHash, e.postmarketHash,
                     e.regularStart, e.regularEnd, e.postmarketStart, e.postmarketEnd,
                     SortBy(e.regularBars, TsLe), SortBy(e.postmarketBars, TsLe))
  }

  function StudyWindow(e: EventEvidence): Window {
    if e.postmarketStart.None? || e.postmarketEnd.None? then Window(None, None, None, None)
    else
      var (start, end) := (e.postmarketStart.value, e.postmarketEnd.value);
      var cutoff := start + STUDY_MINUTES * MINUTE;
      if cutoff > end || start >= end then Window(None, None, None, None)
      else Window(Some(start), Some(end), Some(cutoff), Some(cutoff))
  }

  function StatusOf(c: Classification): Status {
    match c
    case InsufficientData => InsufficientStatus
    case NoMeaningful => NoTriggerInWindow
    case _ => Complete
  }

  function NumbersOf(m: Measures, s: Signal): Numbers {
    var (r, v) := (m.horizonReturns, m.cumulativeVolume);
    Numbers(m.preClose, s.initialReturn,
            Get(r, 1), Get(r, 5), Get(r, 15), Get(r, 30), Get(r, 60), Get(r, 105),
            m.windowHigh, m.windowLow, s.maxFavorable, s.maxAdverse, s.retracement, m.vwapProxy,
            Get(v, 1), Get(v, 5), Get(v, 15), Get(v, 30), Get(v, 60), Get(v, 105))
  }

  function VerdictedOf(v: Verdict, missing: seq<Column>): Verdicted {
    var status := StatusOf(v.classification);
    var direction :=
      match status
      case InsufficientStatus => None
      case NoTriggerInWindow => Some(FlatRow)
      case Complete =>
        if v.signal.initialReturn.Some? && v.signal.initialReturn.value > 0.0 then Some(UpRow) else Some(DownRow);
    Verdicted(
      status, v.reason, if status.InsufficientStatus? then None else Some(v.classification), direction,
      v.signal.timestamp, v.signal.delay,
      if status.InsufficientStatus? then missing else [])
  }

  function BuildRow(e: EventEvidence, f: ReactionFeatures): StoredRow {
    var numbers := NumbersOf(f.measures, f.signal);
    StoredRow(f.symbol, f.earningsDate, FEATURE_VERSION, ALGORITHM_NAME,
              VerdictedOf(Stored(f), MissingFields(numbers)), StudyWindow(e), numbers,
              |e.regularBars| + |e.postmarketBars|, f.coverage, f.provenance, EvidenceDigest(e), f.flags)
  }

  // ------------------------------------------------------------------ the CHECK constraints

  predicate NullOr<T>(o: Option<T>, ok: T -> bool) {
    o.Some? ==> ok(o.value)
  }

  predicate VolumesOk(n: Numbers) {
    && NullOr(n.volume1, v => v >= 0) && NullOr(n.volume5, v => v >= 0) && NullOr(n.volume15, v => v >= 0)
    && NullOr(n.volume30, v => v >= 0) && NullOr(n.volume60, v => v >= 0) && NullOr(n.volume105, v => v >= 0)
  }

  predicate NumbersOk(n: Numbers) {
    && NullOr(n.referencePrice, x => x > 0.0)
    && NullOr(n.maxFavorable, x => x >= 0.0)
    && NullOr(n.maxAdverse, x => x <= 0.0)
    && NullOr(n.maxRetracement, x => x >= 0.0)
    && NullOr(n.vwapProxy, x => x > 0.0)
    && VolumesOk(n)
  }

  predicate CoverageOk(c: Coverage) {
    c.observed >= 0 && c.missing >= 0 && 0.0 <= c.ratio <= 1.0
  }

  predicate WindowOk(w: Window) {
    && (w.start.Some? && w.end.Some? ==> w.end.value > w.start.value)
    && (w.start.Some? && w.featureCutoff.Some? ==> w.featureCutoff.value > w.start.value)
    && (w.featureCutoff.Some? && w.labelCutoff.Some? ==> w.labelCutoff.value >= w.featureCutoff.value)
    && (w.labelCutoff.Some? && w.end.Some? ==> w.labelCutoff.value <= w.end.value)
  }

  predicate TimestampOk(timestamp: Option<int>, w: Window) {
    timestamp.Some? ==>
      w.start.Some? && w.featureCutoff.Some? && w.start.value <= timestamp.value <= w.featureCutoff.value
  }

  predicate IdentityOk(hash: Option<string>, mode: Option<string>) {
    && (hash.None? <==> mode.None?)
    && NullOr(hash, Sha256Hex)
    && NullOr(mode, m => m in COLLECTION_MODES)
  }

  predicate ProvenanceOk(p: Provenance) {
    IdentityOk(p.regularHash, p.regularMode) && IdentityOk(p.postmarketHash, p.postmarketMode)
  }

  predicate FullWindow(w: Window) {
    w.start.Some? && w.end.Some? && w.featureCutoff.Some? && w.labelCutoff.Some?
  }

  predicate BothHashes(p: Provenance) {
    p.regularHash.Some? && p.postmarketHash.Some?
  }

  predicate CompleteOk(v: Verdicted, n: Numbers, count: int, w: Window, p: Provenance) {
    && v.status.Complete?
    && (v.reactionClass == Some(Continuation) || v.reactionClass == Some(Fade)
        || v.reactionClass == Some(Delayed) || v.reactionClass == Some(Whipsaw))
    && (v.direction == Some(UpRow) || v.direction == Some(DownRow))
    && v.timestamp.Some? && v.delay.Some? && v.reason.None?
    && FullWindow(w) && BothHashes(p)
    && count == 20
    && v.missingFields == []
  }

  predicate NoTriggerOk(v: Verdicted, n: Numbers, count: int, w: Window, p: Provenance) {
    && v.status.NoTriggerInWindow?
    && v.reactionClass == Some(NoMeaningful)
    && v.direction == Some(FlatRow)
    && v.timestamp.None? && v.delay.None? && n.initialReturn.None?
    && n.maxFavorable.None? && n.maxAdverse.None? && n.maxRetracement.None?
    && v.reason.Some?
    && FullWindow(w) && BothHashes(p)
    && count == 16
    && v.missingFields == []
  }

  predicate InsufficientOk(v: Verdicted, n: Numbers) {
    && v.status.InsufficientStatus?
    && v.reactionClass.None? && v.direction.None?
    && v.timestamp.None? && v.delay.None? && n.initialReturn.None?
    && n.maxFavorable.None? && n.maxAdverse.None? && n.maxRetracement.None?
    && v.reason.Some?
    && v.missingFields != []
  }

  predicate StatusOk(v: Verdicted, n: Numbers, count: int, w: Window, p: Provenance) {
    CompleteOk(v, n, count, w, p) || NoTriggerOk(v, n, count, w, p) || InsufficientOk(v, n)
  }

  /** Every constraint of the table is true of the row (stronger than "not false"). */
  predicate TableAccepts(row: StoredRow) {
    && NumbersOk(row.numbers)
    && NullOr(row.verdict.delay, d => 1 <= d <= 105)
    && row.sourceBarCount >= 0
    && CoverageOk(row.coverage)
    && WindowOk(row.window)
    && TimestampOk(row.verdict.timestamp, row.window)
    && ProvenanceOk(row.provenance)
    && StatusOk(row.verdict, row.numbers, NumNonNulls(row.numbers), row.window, row.provenance)
  }

  // ------------------------------------------------------------------ when they fit

  /** Coverage rows name the response they came from, and how it was collected. */
  predicate Identified(e: EventEvidence) {
    && IdentityOk(e.regularHash, e.regularMode)
    && IdentityOk(e.postmarketHash, e.postmarketMode)
    && (e.regularCovered ==> e.regularHash.Some?)
    && (e.postmarketCovered ==> e.postmarketHash.Some?)
  }

  /** A window whose checkpoints and volume are there, and whose trigger bar is not its last
      bar, fits the row when it holds at most one bar a minute and its trigger bar starts no
      later than the last minute of the study. Any other window fits. */
  predicate FitsRow(p: real, start: int, study: seq<Bar>)
    requires p != 0.0
  {
    var k := TriggerIndex(Map(study, CloseReturn(p)));
    MissingCheckpoints(p, start, study) == [] && VwapProxy(study).Some? && k + 1 != |study| ==>
      && |study| <= STUDY_MINUTES
      && (k < |study| ==> study[k].ts <= Target(start, STUDY_MINUTES))
  }

  /** What the coverage and timestamp constraints ask of a verdict. */
  predicate VerdictFits(v: Verdict, start: int, observed: int) {
    && (!v.classification.InsufficientData? ==> observed <= STUDY_MINUTES)
    && (v.signal.timestamp.Some? ==> v.signal.timestamp.value <= start + STUDY_MINUTES * MINUTE)
  }

  lemma BarsDecideFit(p: real, start: int, study: seq<Bar>)
    requires p > 0.0
    ensures VerdictFits(VerdictOf(p, start, study), start, |study|) <==> FitsRow(p, start, study)
  {
    var k := TriggerIndex(Map(study, CloseReturn(p)));
    if Signals(p, start, study, k) {
      SignalVerdict(p, start, study, k);
    } else {
      NoSignalVerdict(p, start, study);
    }
  }

  lemma MeasuresOk(p: real, start: int, study: seq<Bar>, s: Signal)
    requires p > 0.0 && study != [] && AllTradable(study)
    requires NullOr(s.maxFavorable, x => x >= 0.0) && NullOr(s.maxAdverse, x => x <= 0.0)
             && NullOr(s.retracement, x => x >= 0.0)
    ensures NumbersOk(NumbersOf(MeasuresOf(p, start, study), s))
  {
    VwapPositive(study);
    CumulativeVolumeMonotone(start, study, 1, 5);
    CumulativeVolumeMonotone(start, study, 15, 30);
    CumulativeVolumeMonotone(start, study, 60, 105);
  }

  lemma SignalNumbers(p: real, start: int, study: seq<Bar>, path: Path, timestamp: int)
    requires p > 0.0 && study != [] && AllTradable(study)
    requires MissingCheckpoints(p, start, study) == [] && VwapProxy(study).Some?
    requires path.favorable > 0.0 && path.adverse <= 0.0
    ensures var n := NumbersOf(MeasuresOf(p, start, study), SignalOf(path, timestamp));
            NumbersOk(n) && NumNonNulls(n) == 20
  {
    var s := SignalOf(path, timestamp);
    RetracementMeaning(path.favorable, path.terminal);
    MeasuresOk(p, start, study, s);
  }

  /** The columns a verdict fills, given its window's numbers. */
  ghost predicate ColumnsOk(v: Verdict, n: Numbers, count: int, w: Window, prov: Provenance) {
    && NullOr(v.signal.delay, d => 1 <= d <= 105)
    && StatusOk(VerdictedOf(v, MissingFields(n)), n, count, w, prov)
  }

  lemma LoudColumns(v: Verdict, n: Numbers, w: Window, prov: Provenance)
    requires FullWindow(w) && BothHashes(prov)
    requires StatusOf(v.classification).Complete? && v.reason.None? && v.signal.timestamp.Some?
    requires v.signal.delay.Some? && 1 <= v.signal.delay.value <= 105
    ensures ColumnsOk(v, n, 20, w, prov)
  {
  }

  lemma SignalColumns(p: real, start: int, study: seq<Bar>, k: nat, w: Window, prov: Provenance)
    requires Signals(p, start, study, k) && AllTradable(study) && FullWindow(w) && BothHashes(prov)
    requires start <= study[k].ts < start + STUDY_MINUTES * MINUTE
    ensures var v := VerdictOf(p, start, study);
            var n := NumbersOf(MeasuresOf(p, start, study), v.signal);
            NumbersOk(n) && ColumnsOk(v, n, NumNonNulls(n), w, prov)
  {
    var path := SignalPath(p, start, study, k);
    SignalNumbers(p, start, study, path, study[k].ts + MINUTE);
    SignalVerdict(p, start, study, k);
    LoudColumns(VerdictOf(p, start, study), NumbersOf(MeasuresOf(p, start, study), VerdictOf(p, start, study).signal),
                w, prov);
  }

  lemma QuietColumns(v: Verdict, n: Numbers, count: int, w: Window, prov: Provenance)
    requires v.signal == NO_SIGNAL && v.reason.Some?
    requires n.initialReturn.None? && n.maxFavorable.None? && n.maxAdverse.None? && n.maxRetracement.None?
    requires v.classification.InsufficientData? || (v.classification.NoMeaningful? && FullWindow(w) && BothHashes(prov))
    requires v.classification.NoMeaningful? ==> count == 16
    ensures ColumnsOk(v, n, count, w, prov)
  {
  }

  lemma QuietNumbers(p: real, start: int, study: seq<Bar>, measured: bool)
    requires p > 0.0 && study != []
    requires measured ==> MissingCheckpoints(p, start, study) == [] && VwapProxy(study).Some?
    ensures measured ==> NumNonNulls(NumbersOf(MeasuresOf(p, start, study), NO_SIGNAL)) == 16
  {
  }

  lemma NoSignalColumns(p: real, start: int, study: seq<Bar>, w: Window, prov: Provenance)
    requires p > 0.0 && study != [] && AllTradable(study) && FullWindow(w) && BothHashes(prov)
    requires !Signals(p, start, study, TriggerIndex(Map(study, CloseReturn(p))))
    ensures var v := VerdictOf(p, start, study);
            var n := NumbersOf(MeasuresOf(p, start, study), v.signal);
            NumbersOk(n) && ColumnsOk(v, n, NumNonNulls(n), w, prov)
  {
    NoSignalVerdict(p, start, study);
    MeasuresOk(p, start, study, NO_SIGNAL);
    var v := VerdictOf(p, start, study);
    QuietNumbers(p, start, study, v.classification.NoMeaningful?);
    var n := NumbersOf(MeasuresOf(p, start, study), NO_SIGNAL);
    QuietColumns(v, n, NumNonNulls(n), w, prov);
  }

  ghost predicate InsideStudy(start: int, study: seq<Bar>) {
    forall i :: 0 <= i < |study| ==> start <= study[i].ts < start + STUDY_MINUTES * MINUTE
  }

  lemma WindowColumns(p: real, start: int, study: seq<Bar>, w: Window, prov: Provenance)
    requires p > 0.0 && study != [] && AllTradable(study) && FullWindow(w) && BothHashes(prov)
             && InsideStudy(start, study)
    ensures var v := VerdictOf(p, start, study);
            var n := NumbersOf(MeasuresOf(p, start, study), v.signal);
            NumbersOk(n) && ColumnsOk(v, n, NumNonNulls(n), w, prov)
    ensures var t := VerdictOf(p, start, study).signal.timestamp; t.Some? ==> start <= t.value
  {
    var k := TriggerIndex(Map(study, CloseReturn(p)));
    if Signals(p, start, study, k) {
      SignalColumns(p, start, study, k, w, prov);
      SignalVerdict(p, start, study, k);
    } else {
      NoSignalColumns(p, start, study, w, prov);
      NoSignalVerdict(p, start, study);
    }
  }

  lemma StudyCoverageOk(e: EventEvidence)
    ensures CoverageOk(StudyCoverage(e))
  {
  }

  /** The table takes the row of a measured window exactly when the window fits it. */
  lemma WindowRow(e: EventEvidence, p: real, start: int, study: seq<Bar>)
    requires p > 0.0 && study != [] && AllTradable(study) && InsideStudy(start, study)
    requires Identified(e) && e.regularCovered && e.postmarketCovered
    requires e.postmarketStart == Some(start) && e.postmarketEnd.Some?
    requires start < start + STUDY_MINUTES * MINUTE <= e.postmarketEnd.value
    ensures TableAccepts(BuildRow(e, Reacted(e, p, start, study))) <==> FitsRow(p, start, study)
  {
    WindowColumns(p, start, study, StudyWindow(e), ProvenanceOf(e));
    FitMeaning(e, VerdictOf(p, start, study), start, |study|);
    BarsDecideFit(p, start, study);
    AssembledRow(e, |study|, MeasuresOf(p, start, study), FlagsOf(e.flags, start, study), VerdictOf(p, start, study));
  }

  lemma FitMeaning(e: EventEvidence, v: Verdict, start: int, observed: nat)
    requires e.postmarketStart == Some(start) && e.postmarketEnd.Some?
    requires start < start + STUDY_MINUTES * MINUTE <= e.postmarketEnd.value
    requires v.signal.timestamp.Some? ==> start <= v.signal.timestamp.value
    ensures var coverage := if v.classification.InsufficientData? then StudyCoverage(e) else CoverageOf(observed);
            CoverageOk(coverage) && TimestampOk(v.signal.timestamp, StudyWindow(e)) <==> VerdictFits(v, start, observed)
  {
    StudyCoverageOk(e);
  }

  lemma AssembledRow(e: EventEvidence, observed: int, m: Measures, flags: seq<QualityFlag>, v: Verdict)
    requires Identified(e)
    requires var n := NumbersOf(m, v.signal);
             NumbersOk(n) && ColumnsOk(v, n, NumNonNulls(n), StudyWindow(e), ProvenanceOf(e))
    ensures var coverage := if v.classification.InsufficientData? then StudyCoverage(e) else CoverageOf(observed);
            TableAccepts(BuildRow(e, Assembled(e, observed, m, flags, v)))
            <==> CoverageOk(coverage) && TimestampOk(v.signal.timestamp, StudyWindow(e))
  {
    EvidenceParts(e);
    var row := BuiltParts(e, Assembled(e, observed, m, flags, v), v);
    PartsDecide(row);
  }

  /** The parts of a row that come from the evidence alone always satisfy their constraints. */
  lemma EvidenceParts(e: EventEvidence)
    requires Identified(e)
    ensures WindowOk(StudyWindow(e)) && ProvenanceOk(ProvenanceOf(e))
  {
  }

  lemma BuiltParts(e: EventEvidence, f: ReactionFeatures, v: Verdict) returns (row: StoredRow)
    requires f.provenance == ProvenanceOf(e) && v == Stored(f)
    ensures row == BuildRow(e, f) && row.sourceBarCount >= 0
    ensures row.numbers == NumbersOf(f.measures, f.signal)
    ensures row.verdict == VerdictedOf(v, MissingFields(row.numbers))
    ensures row.window == StudyWindow(e) && row.coverage == f.coverage && row.provenance == ProvenanceOf(e)
  {
    row := BuildRow(e, f);
  }

  lemma PartsDecide(row: StoredRow)
    requires NumbersOk(row.numbers) && NullOr(row.verdict.delay, d => 1 <= d <= 105) && row.sourceBarCount >= 0
    requires WindowOk(row.window) && ProvenanceOk(row.provenance)
    requires StatusOk(row.verdict, row.numbers, NumNonNulls(row.numbers), row.window, row.provenance)
    ensures TableAccepts(row) <==> CoverageOk(row.coverage) && TimestampOk(row.verdict.timestamp, row.window)
  {
  }

  /** A rejected event's row is always accepted. */
  lemma RejectedRow(e: EventEvidence, reason: Reason)
    requires Identified(e)
    ensures TableAccepts(BuildRow(e, EmptyFeatures(e, reason)))
  {
    var v := Verdict(InsufficientData, NO_SIGNAL, Some(reason));
    StudyCoverageOk(e);
    EvidenceParts(e);
    var n := EmptyNumbers();
    QuietColumns(v, n, NumNonNulls(n), StudyWindow(e), ProvenanceOf(e));
    var row := BuiltParts(e, EmptyFeatures(e, reason), v);
    PartsDecide(row);
  }

  lemma EmptyNumbers() returns (n: Numbers)
    ensures n == NumbersOf(NO_MEASURES, NO_SIGNAL) && NumbersOk(n)
    ensures n.initialReturn.None? && n.maxFavorable.None? && n.maxAdverse.None? && n.maxRetracement.None?
  {
    n := NumbersOf(NO_MEASURES, NO_SIGNAL);
  }

  lemma AcceptedWindow(e: EventEvidence)
    requires Accepted(e)
    ensures && AllTradable(StudyBars(e))
            && InsideStudy(e.postmarketStart.value, StudyBars(e))
            && Ascending(StudyBars(e))
    ensures && StudyEnd(e) <= e.postmarketEnd.value
            && e.regularCovered
            && e.postmarketCovered
  {
    AcceptedTradable(e);
    StudyContents(e);
    forall i | 0 <= i < |StudyBars(e)|
      ensures e.postmarketStart.value <= StudyBars(e)[i].ts < StudyEnd(e)
    {
      assert StudyBars(e)[i] in StudyBars(e);
    }
  }

  ghost predicate StudyFits(e: EventEvidence) {
    Accepted(e) ==> FitsRow(PreClose(e), e.postmarketStart.value, StudyBars(e))
  }

  /** A computed result is storable exactly when an accepted event's bars fit the row. */
  lemma RowFitsTable(e: EventEvidence)
    requires Identified(e)
    ensures TableAccepts(BuildRow(e, Features(e))) <==> StudyFits(e)
  {
    if Accepted(e) {
      AcceptedWindow(e);
      WindowRow(e, PreClose(e), e.postmarketStart.value, StudyBars(e));
    } else {
      RejectedRow(e, Rejection(e).value);
    }
  }

  /** Ascending whole minutes inside the window: the i-th bar is at minute i or later. */
  lemma {:induction false} MinutesPassed(study: seq<Bar>, start: int, i: nat)
    requires i < |study| && Ascending(study) && InsideStudy(start, study)
    requires forall j :: 0 <= j < |study| ==> (study[j].ts - start) % MINUTE == 0
    ensures study[i].ts >= start + MINUTE * i
  {
    if i > 0 {
      MinutesPassed(study, start, i - 1);
    }
  }

  lemma AlignedWindowFits(p: real, start: int, study: seq<Bar>)
    requires p > 0.0 && study != [] && Ascending(study) && InsideStudy(start, study)
    requires forall j :: 0 <= j < |study| ==> (study[j].ts - start) % MINUTE == 0
    ensures FitsRow(p, start, study)
  {
    AtMostOneAMinute(study, start);
    var k := TriggerIndex(Map(study, CloseReturn(p)));
    if k + 1 < |study| {
      SignalBeforeCutoff(study, start, k);
    }
  }

  lemma SignalBeforeCutoff(study: seq<Bar>, start: int, k: nat)
    requires k + 1 < |study| && Ascending(study) && InsideStudy(start, study)
    requires forall j :: 0 <= j < |study| ==> (study[j].ts - start) % MINUTE == 0
    ensures study[k].ts <= Target(start, STUDY_MINUTES)
  {
    assert study[k].ts < study[k + 1].ts;
  }

  lemma AtMostOneAMinute(study: seq<Bar>, start: int)
    requires study != [] && Ascending(study) && InsideStudy(start, study)
    requires forall j :: 0 <= j < |study| ==> (study[j].ts - start) % MINUTE == 0
    ensures |study| <= STUDY_MINUTES
  {
    MinutesPassed(study, start, |study| - 1);
  }

  /** Minute-aligned evidence always yields a row the table accepts. */
  lemma AlignedRowFitsTable(e: EventEvidence)
    requires Identified(e) && (e.postmarketStart.Some? ==> Aligned(e))
    ensures TableAccepts(BuildRow(e, Features(e)))
  {
    if Accepted(e) {
      AcceptedWindow(e);
      StudyContents(e);
      var start, study := e.postmarketStart.value, StudyBars(e);
      forall j | 0 <= j < |study| ensures (study[j].ts - start) % MINUTE == 0 {
        assert study[j] in study;
        assert InStudy(e, study[j]);
      }
      AlignedWindowFits(PreClose(e), start, study);
    }
    RowFitsTable(e);
  }

  // ------------------------------------------------------------------ why alignment matters

  const OFF_MINUTE: seq<Bar> := [
    Flat(0, 100.0), Flat(840, 100.0), Flat(1740, 100.0), Flat(3540, 100.0),
    Flat(6240, 100.0), Flat(6250, 103.0), Flat(6290, 103.0)]

  lemma OffMinuteCloses()
    ensures TriggerIndex(Map(OFF_MINUTE, CloseReturn(100.0))) == 5
  {
    MapAt(OFF_MINUTE, CloseReturn(100.0));
    var closes := Map(OFF_MINUTE, CloseReturn(100.0));
    forall i | 0 <= i < 7 ensures closes[i] == if i < 5 then 0.0 else 3.0 {
      assert closes[i] == PctChange(100.0, OFF_MINUTE[i].close);
    }
  }

  lemma OffMinuteSignals()
    ensures Signals(100.0, 0, OFF_MINUTE, 5)
  {
    OffMinuteCloses();
    OffMinuteOrdered();
    SomeVolumeTraded(OFF_MINUTE, 0);
    CheckpointNear(100.0, OFF_MINUTE, 1, 0);
    CheckpointNear(100.0, OFF_MINUTE, 5, 0);
    CheckpointNear(100.0, OFF_MINUTE, 15, 1);
    CheckpointNear(100.0, OFF_MINUTE, 30, 2);
    CheckpointNear(100.0, OFF_MINUTE, 60, 3);
    CheckpointNear(100.0, OFF_MINUTE, 105, 4);
    NoneMissing(100.0, 0, OFF_MINUTE);
  }

  lemma OffMinuteOrdered()
    ensures Ascending(OFF_MINUTE) && AllTradable(OFF_MINUTE)
  {
  }

  lemma WindowEventIdentified(last: Bar, study: seq<Bar>)
    ensures Identified(WindowEvent(last, study))
  {
    assert COLLECTION_MODES[0] == "scheduled_capture";
  }

  lemma LateSignal(p: real, start: int, study: seq<Bar>, k: nat)
    requires Signals(p, start, study, k) && study[k].ts > Target(start, STUDY_MINUTES)
    ensures !FitsRow(p, start, study)
  {
  }

  lemma MisfitRow(e: EventEvidence)
    requires Accepted(e) && Identified(e) && !StudyFits(e)
    ensures !TableAccepts(BuildRow(e, Features(e)))
  {
    RowFitsTable(e);
  }

  /** Accepted, identified evidence whose bars leave the whole minute can confirm a signal after
      the cutoff; the table then refuses the row. */
  lemma OffMinuteRowFails() returns (e: EventEvidence)
    ensures Accepted(e) && Identified(e)
    ensures !TableAccepts(BuildRow(e, Features(e)))
  {
    var last, study := Flat(-60, 100.0), OFF_MINUTE;
    e := WindowEvent(last, study);
    OffMinuteOrdered();
    WindowEventAccepted(last, study);
    WindowEventIdentified(last, study);
    OffMinuteSignals();
    LateSignal(100.0, 0, study, 5);
    MisfitRow(e);
  }
}
