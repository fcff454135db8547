/** The reaction engine's whole answer for one event: exactly when it is accepted, and every
    stored value, told in the evidence's own bars, prices and volumes. */
module ReactionAnswers {
  import opened Sequences
  import opened Bars
  import opened Reactions
  import opened ReactionLaws
  import opened ReactionEnvelope
  import opened ReactionCausality
  import opened ReactionPrices
  import opened FeatureRow

  // ------------------------------------------------------------------ the verdict

  /** Every horizon has a return and something was traded. */
  ghost predicate Complete(m: Measures) {
    (forall h :: h in SIX ==> h in m.horizonReturns && m.horizonReturns[h].Some?) && m.vwapProxy.Some?
  }

  /** Which horizons a window lacks, and whether it lacks volume. */
  ghost predicate Lacking(reason: Option<Reason>, m: Measures) {
    && reason.Some? && reason.value.Incomplete?
    && (forall h :: h in reason.value.checkpoints <==> h in SIX && h in m.horizonReturns && m.horizonReturns[h].None?)
    && reason.value.zeroVolume == m.vwapProxy.None?
  }

  /** The verdict on a measured window whose closes first move at bar `k`. */
  ghost predicate VerdictInPrices(v: Verdict, m: Measures, p: real, start: int, study: seq<Bar>, k: nat) {
    if Complete(m) && k + 1 < |study| then
      && v.reason.None?
      && SignalInPrices(v.signal, p, start, study, k)
      && ClassInPrices(v.classification, v.signal, p, study, k)
    else
      && v.signal == NO_SIGNAL
      && v.classification == (if Complete(m) && k == |study| then NoMeaningful else InsufficientData)
      && if !Complete(m) then Lacking(v.reason, m)
         else v.reason == Some(if k == |study| then NoTrigger else NoPostSignalBar)
  }

  lemma MissingMeaning(p: real, start: int, study: seq<Bar>)
    requires p != 0.0
    ensures forall h :: h in MissingCheckpoints(p, start, study) <==>
                          h in SIX && HorizonReturn(p, start, study, h).None?
  {
    HorizonsAreSix();
    FilterMembers(HORIZONS_MINUTES, MissingAt(p, start, study));
    forall h ensures MissingAt(p, start, study)(h) <==> HorizonReturn(p, start, study, h).None? {
    }
  }

  lemma HorizonsComplete(p: real, start: int, study: seq<Bar>, returns_: map<int, Option<real>>)
    requires p != 0.0 && returns_ == HorizonReturns(p, start, study)
    ensures MissingCheckpoints(p, start, study) == [] <==> forall h :: h in SIX ==> h in returns_ && returns_[h].Some?
    ensures forall h :: h in MissingCheckpoints(p, start, study) <==> h in SIX && h in returns_ && returns_[h].None?
  {
    HorizonsAreSix();
    MissingMeaning(p, start, study);
    var missing := MissingCheckpoints(p, start, study);
    if missing != [] {
      assert missing[0] in missing;
    }
  }

  lemma CompleteMeaning(p: real, start: int, study: seq<Bar>, m: Measures)
    requires p != 0.0 && m.horizonReturns == HorizonReturns(p, start, study) && m.vwapProxy == VwapProxy(study)
    ensures Complete(m) <==> MissingCheckpoints(p, start, study) == [] && VwapProxy(study).Some?
    ensures forall h :: h in MissingCheckpoints(p, start, study) <==>
              h in SIX && h in m.horizonReturns && m.horizonReturns[h].None?
  {
    HorizonsComplete(p, start, study, m.horizonReturns);
  }

  lemma VerdictPriced(p: real, start: int, study: seq<Bar>, k: nat, m: Measures, v: Verdict)
    requires p > 0.0 && study != [] && Tradable(study[|study| - 1])
    requires forall i :: 0 <= i < |study| ==> start <= study[i].ts
    requires k == TriggerIndex(Map(study, CloseReturn(p)))
    requires m == MeasuresOf(p, start, study) && v == VerdictOf(p, start, study)
    ensures VerdictInPrices(v, m, p, start, study, k)
  {
    if Complete(m) && k + 1 < |study| {
      CompleteMeaning(p, start, study, m);
      SignalPriced(p, start, study, k, v);
      ConfirmedReason(p, start, study, k, v);
    } else {
      var missing, first, after := MeasuredParts(p, start, study, m, v);
      QuietAnswer(p, start, study, first, missing, m, v, after);
    }
  }

  /** The parts a verdict is made of. */
  lemma VerdictParts(p: real, start: int, study: seq<Bar>)
    returns (missing: seq<int>, vwap: Option<real>, k: nat, after: Verdict)
    requires p > 0.0
    ensures missing == MissingCheckpoints(p, start, study) && vwap == VwapProxy(study)
    ensures k == TriggerIndex(Map(study, CloseReturn(p))) && k <= |study|
    ensures after == TriggerVerdict(p, start, study, k)
    ensures VerdictOf(p, start, study)
            == if missing != [] || vwap.None?
               then Verdict(InsufficientData, NO_SIGNAL, Some(Incomplete(missing, vwap.None?))) else after
  {
    missing, vwap := MissingCheckpoints(p, start, study), VwapProxy(study);
    k := TriggerIndex(Map(study, CloseReturn(p)));
    after := TriggerVerdict(p, start, study, k);
  }

  lemma UnconfirmedVerdict(p: real, start: int, study: seq<Bar>, k: nat)
    requires p > 0.0 && k <= |study| <= k + 1
    ensures TriggerVerdict(p, start, study, k)
            == if k == |study| then Verdict(NoMeaningful, NO_SIGNAL, Some(NoTrigger))
               else Verdict(InsufficientData, NO_SIGNAL, Some(NoPostSignalBar))
  {
  }

  lemma QuietAnswer(p: real, start: int, study: seq<Bar>, k: nat, missing: seq<int>, m: Measures, v: Verdict,
                    after: Verdict)
    requires p > 0.0 && k <= |study| && after == TriggerVerdict(p, start, study, k)
    requires Complete(m) <==> missing == [] && m.vwapProxy.Some?
    requires forall h :: h in missing <==> h in SIX && h in m.horizonReturns && m.horizonReturns[h].None?
    requires !(Complete(m) && k + 1 < |study|)
    requires v == if missing != [] || m.vwapProxy.None?
                  then Verdict(InsufficientData, NO_SIGNAL, Some(Incomplete(missing, m.vwapProxy.None?))) else after
    ensures VerdictInPrices(v, m, p, start, study, k)
  {
    if Complete(m) {
      UnconfirmedVerdict(p, start, study, k);
    }
  }

  /** The same parts, beside the measures they were read from. */
  lemma MeasuredParts(p: real, start: int, study: seq<Bar>, m: Measures, v: Verdict)
    returns (missing: seq<int>, k: nat, after: Verdict)
    requires p > 0.0 && m.horizonReturns == HorizonReturns(p, start, study) && m.vwapProxy == VwapProxy(study)
    requires v == VerdictOf(p, start, study)
    ensures k == TriggerIndex(Map(study, CloseReturn(p))) && k <= |study| && after == TriggerVerdict(p, start, study, k)
    ensures Complete(m) <==> missing == [] && m.vwapProxy.Some?
    ensures forall h :: h in missing <==> h in SIX && h in m.horizonReturns && m.horizonReturns[h].None?
    ensures v == if missing != [] || m.vwapProxy.None?
                 then Verdict(InsufficientData, NO_SIGNAL, Some(Incomplete(missing, m.vwapProxy.None?))) else after
  {
    var absent, vwap, first, later := VerdictParts(p, start, study);
    CompleteMeaning(p, start, study, m);
    missing, k, after := absent, first, later;
  }

  lemma ConfirmedReason(p: real, start: int, study: seq<Bar>, k: nat, v: Verdict)
    requires Signals(p, start, study, k) && v == VerdictOf(p, start, study)
    ensures v.reason.None?
  {
    SignalVerdict(p, start, study, k);
  }

  // ------------------------------------------------------------------ the evidence it reads

  /** The study: the postmarket bars of the first 105 minutes, in time order. */
  ghost predicate IsStudy(e: EventEvidence, study: seq<Bar>)
    requires e.postmarketStart.Some?
  {
    && Ascending(study)
    && forall b :: b in study <==>
         b in e.postmarketBars && e.postmarketStart.value <= b.ts < e.postmarketStart.value + 6300
  }

  /** The close of the regular session's last minute. */
  ghost predicate IsPreClose(e: EventEvidence, p: real)
    requires e.regularEnd.Some?
  {
    exists b :: b in e.regularBars && b.ts == e.regularEnd.value - 60 && b.close == p
  }

  lemma StudyRead(e: EventEvidence, study: seq<Bar>)
    requires Accepted(e) && IsStudy(e, study)
    ensures study == StudyBars(e)
  {
    StudyContents(e);
    AscendingUnique(study, StudyBars(e));
  }

  lemma {:induction false} OnlyAt(bars: seq<Bar>, b: Bar)
    requires DistinctTimes(bars) && b in bars
    ensures At(bars, b.ts) == Some(b)
  {
    if bars[0] != b {
      var i :| 0 <= i < |bars| && bars[i] == b;
      assert bars[1..][i - 1] == b;
      OnlyAt(bars[1..], b);
    }
  }

  lemma PreCloseRead(e: EventEvidence, p: real)
    requires Accepted(e) && IsPreClose(e, p)
    ensures p == PreClose(e)
  {
    AcceptedBars(e);
    var b :| b in e.regularBars && b.ts == e.regularEnd.value - 60 && b.close == p;
    OnlyAt(e.regularBars, b);
    DeduplicatedAt(e.regularBars, b.ts);
  }

  // ------------------------------------------------------------------ the whole answer

  lemma StudyFacts(e: EventEvidence) returns (study: seq<Bar>)
    requires Accepted(e)
    ensures study == StudyBars(e) && study != [] && Ascending(study) && AllTradable(study)
    ensures forall i :: 0 <= i < |study| ==> e.postmarketStart.value <= study[i].ts
  {
    study := StudyBars(e);
    AcceptedTradable(e);
    StudyContents(e);
    forall i | 0 <= i < |study| ensures e.postmarketStart.value <= study[i].ts {
      assert study[i] in study;
    }
  }

  lemma StudyOf(e: EventEvidence, p: real, study: seq<Bar>)
    requires Accepted(e) && IsStudy(e, study) && IsPreClose(e, p)
    ensures p == PreClose(e) && study == StudyBars(e)
    ensures study != [] && Ascending(study) && AllTradable(study)
    ensures forall i :: 0 <= i < |study| ==> e.postmarketStart.value <= study[i].ts
  {
    StudyRead(e, study);
    PreCloseRead(e, p);
    var bars := StudyFacts(e);
  }

  lemma StoredRead(e: EventEvidence, p: real, start: int, study: seq<Bar>) returns (m: Measures, v: Verdict)
    requires Accepted(e) && p == PreClose(e) && e.postmarketStart == Some(start) && study == StudyBars(e) && study != []
    ensures m == Features(e).measures && v == Stored(Features(e))
    ensures m == MeasuresOf(p, start, study) && v == VerdictOf(p, start, study)
  {
    m := StoredMeasures(e);
    var stored, _ := StoredVerdict(e);
    v := stored;
  }

  /** What is stored for an accepted event, as computed from its study and pre-close. */
  lemma EvidenceRead(e: EventEvidence, p: real, study: seq<Bar>) returns (start: int, m: Measures, v: Verdict)
    requires Accepted(e) && IsStudy(e, study) && IsPreClose(e, p)
    ensures e.postmarketStart == Some(start) && m == Features(e).measures && v == Stored(Features(e))
    ensures p > 0.0 && study != [] && Ascending(study) && AllTradable(study)
    ensures forall i :: 0 <= i < |study| ==> start <= study[i].ts
    ensures m == MeasuresOf(p, start, study) && v == VerdictOf(p, start, study)
  {
    StudyOf(e, p, study);
    start := e.postmarketStart.value;
    m, v := StoredRead(e, p, start, study);
  }

  /** Every measured value and the verdict of an accepted event follow from its pre-close and
      its study bars; `k` is the first bar whose close moved. */
  lemma FeaturesInPrices(e: EventEvidence, p: real, study: seq<Bar>)
    returns (start: int, m: Measures, v: Verdict, k: nat)
    requires Accepted(e) && IsStudy(e, study) && IsPreClose(e, p)
    ensures e.postmarketStart == Some(start) && m == Features(e).measures && v == Stored(Features(e))
    ensures p > 0.0 && study != [] && TriggersAt(p, study, k)
    ensures MeasuresInPrices(m, p, start, study) && VerdictInPrices(v, m, p, start, study, k)
  {
    start, m, v := EvidenceRead(e, p, study);
    k := AnswerPriced(p, start, study, m, v);
  }

  lemma AnswerPriced(p: real, start: int, study: seq<Bar>, m: Measures, v: Verdict) returns (k: nat)
    requires p > 0.0 && study != [] && Ascending(study) && AllTradable(study)
    requires forall i :: 0 <= i < |study| ==> start <= study[i].ts
    requires m == MeasuresOf(p, start, study) && v == VerdictOf(p, start, study)
    ensures TriggersAt(p, study, k)
    ensures MeasuresInPrices(m, p, start, study) && VerdictInPrices(v, m, p, start, study, k)
  {
    k := TriggerIndex(Map(study, CloseReturn(p)));
    TriggerIsFirstMove(p, study, k);
    MeasuresPriced(p, start, study, m);
    VerdictPriced(p, start, study, k, m, v);
  }

  // ------------------------------------------------------------------ when an event is accepted

  const FATAL: set<string> := {"duplicate_minute_bars", "no_bars_in_requested_phase", "no_bars_returned"}

  /** Both phases covered, adjacent, and read after they ended; no fatal flag; an ordinary close. */
  ghost predicate SoundCoverage(e: EventEvidence) {
    && e.regularCovered && e.postmarketCovered && e.opensAtFour
    && e.regularStart.Some? && e.regularEnd.Some? && e.postmarketStart.Some? && e.postmarketEnd.Some?
    && e.regularStart.value < e.regularEnd.value == e.postmarketStart.value < e.postmarketEnd.value
    && (e.regularStale ==> e.regularReceivedAt.Some? && e.regularReceivedAt.value >= e.regularEnd.value)
    && (e.postmarketStale ==> e.postmarketReceivedAt.Some? && e.postmarketReceivedAt.value >= e.postmarketEnd.value)
    && forall flag :: flag in e.flags ==> flag !in FATAL
  }

  /** Well-formed bars inside one phase, one a time. */
  ghost predicate SoundPhase(bars: seq<Bar>, start: int, end: int) {
    DistinctTimes(bars) && forall b :: b in bars ==> Tradable(b) && start <= b.ts < end
  }

  /** What the engine asks of evidence before it measures anything. */
  ghost predicate Measurable(e: EventEvidence) {
    && SoundCoverage(e)
    && SoundPhase(e.regularBars, e.regularStart.value, e.regularEnd.value)
    && SoundPhase(e.postmarketBars, e.postmarketStart.value, e.postmarketEnd.value)
    && e.postmarketStart.value + 6300 <= e.postmarketEnd.value
    && (exists p :: IsPreClose(e, p))
    && (exists study :: IsStudy(e, study) && |study| >= 5)
  }

  lemma FatalMeaning(flags: seq<string>)
    ensures Filter(flags, IsFatal()) == [] <==> forall flag :: flag in flags ==> flag !in FATAL
  {
    FilterMembers(flags, IsFatal());
    assert FATAL_QUALITY_FLAGS[0] == "duplicate_minute_bars" && FATAL_QUALITY_FLAGS[1] == "no_bars_in_requested_phase";
    assert FATAL_QUALITY_FLAGS[2] == "no_bars_returned";
    if Filter(flags, IsFatal()) != [] {
      assert Filter(flags, IsFatal())[0] in flags;
    }
    forall flag | flag in flags && flag in FATAL ensures flag in Filter(flags, IsFatal()) {
      assert IsFatal()(flag);
    }
  }

  lemma CoverageMeaning(e: EventEvidence)
    ensures CoverageRejection(e).None? <==> SoundCoverage(e)
  {
    FatalMeaning(e.flags);
  }

  lemma PhaseMeaning(bars: seq<Bar>, start: int, end: int)
    ensures SoundPhase(bars, start, end) <==>
            && FirstDefect(bars).None? && |Deduplicated(bars)| == |bars|
            && !(exists b :: b in bars && !(start <= b.ts < end))
  {
    NoFirstDefect(bars);
    DeduplicatedLossless(bars);
  }

  lemma AcceptedParts(e: EventEvidence)
    requires Accepted(e)
    ensures SoundCoverage(e)
    ensures SoundPhase(e.regularBars, e.regularStart.value, e.regularEnd.value)
    ensures SoundPhase(e.postmarketBars, e.postmarketStart.value, e.postmarketEnd.value)
    ensures e.postmarketStart.value + 6300 <= e.postmarketEnd.value && |StudyBars(e)| >= 5
  {
    CoverageMeaning(e);
    PhaseMeaning(e.regularBars, e.regularStart.value, e.regularEnd.value);
    PhaseMeaning(e.postmarketBars, e.postmarketStart.value, e.postmarketEnd.value);
  }

  lemma AcceptedReads(e: EventEvidence)
    requires Accepted(e)
    ensures IsStudy(e, StudyBars(e)) && IsPreClose(e, PreClose(e))
  {
    StudyContents(e);
    DeduplicatedAt(e.regularBars, e.regularEnd.value - 60);
    var b := PreCloseBar(e).value;
    assert b in e.regularBars && b.ts == e.regularEnd.value - 60;
  }

  lemma MeasurableAccepted(e: EventEvidence, last: Bar, study: seq<Bar>)
    requires SoundCoverage(e)
    requires SoundPhase(e.regularBars, e.regularStart.value, e.regularEnd.value)
    requires SoundPhase(e.postmarketBars, e.postmarketStart.value, e.postmarketEnd.value)
    requires e.postmarketStart.value + 6300 <= e.postmarketEnd.value
    requires last in e.regularBars && last.ts == e.regularEnd.value - 60
    requires IsStudy(e, study) && |study| >= 5
    ensures Accepted(e)
  {
    CoverageMeaning(e);
    NoFirstDefect(e.regularBars);
    NoFirstDefect(e.postmarketBars);
    WindowContents(e.postmarketBars, e.postmarketStart.value, StudyEnd(e));
    AscendingUnique(study, StudyBars(e));
    OnlyAt(e.regularBars, last);
    AcceptedWhen(e, last);
  }

  /** An event is accepted exactly when its evidence is measurable. */
  lemma AcceptedExactly(e: EventEvidence)
    ensures Accepted(e) <==> Measurable(e)
  {
    if Accepted(e) {
      AcceptedParts(e);
      AcceptedReads(e);
    }
    if Measurable(e) {
      var p :| IsPreClose(e, p);
      var last :| last in e.regularBars && last.ts == e.regularEnd.value - 60 && last.close == p;
      var study :| IsStudy(e, study) && |study| >= 5;
      MeasurableAccepted(e, last, study);
    }
  }

  // ------------------------------------------------------------------ flags and coverage

  ghost predicate CarriedAge(study: seq<Bar>, target: int, age: int) {
    age != 0 && exists b :: LatestBar(study, target, b) && 60 * age <= target - b.ts < 60 * age + 60
  }

  lemma CarryFlagMeaning(start: int, study: seq<Bar>, h: int, age: int)
    requires Ascending(study)
    ensures CarryFlag(start, study, h) == [CarriedForward(h, age)] <==> CarriedAge(study, start + (h - 1) * 60, age)
  {
    var target := start + (h - 1) * 60;
    CheckpointIsLatest(study, target);
    var found := Checkpoint(study, target);
    if found.Some? {
      assert LatestBar(study, target, found.value.0);
      forall b | LatestBar(study, target, b) ensures b == found.value.0 {
        SameTime(study, b, found.value.0);
      }
    } else {
      forall b ensures !LatestBar(study, target, b) {
        if b in study && b.ts <= target {
          assert (target - b.ts) / MINUTE > 10;
        }
      }
    }
  }

  lemma SameTime(study: seq<Bar>, a: Bar, b: Bar)
    requires Ascending(study) && a in study && b in study && a.ts == b.ts
    ensures a == b
  {
    var i :| 0 <= i < |study| && study[i] == a;
    var j :| 0 <= j < |study| && study[j] == b;
  }

  lemma FlagStored(e: EventEvidence, start: int, study: seq<Bar>, h: int, age: int) returns (flags: seq<QualityFlag>)
    requires Accepted(e) && e.postmarketStart == Some(start) && IsStudy(e, study)
    ensures flags == Features(e).flags
    ensures CarriedForward(h, age) in flags <==> h in SIX && CarryFlag(start, study, h) == [CarriedForward(h, age)]
  {
    StudyRead(e, study);
    HorizonsAreSix();
    flags := Features(e).flags;
    StoredFlags(e, h, age);
  }

  /** A carried checkpoint is flagged with the age of the bar it was carried from, and no other is. */
  lemma FlagsInPrices(e: EventEvidence, start: int, study: seq<Bar>, h: int, age: int) returns (flags: seq<QualityFlag>)
    requires Accepted(e) && e.postmarketStart == Some(start) && IsStudy(e, study)
    ensures flags == Features(e).flags
    ensures CarriedForward(h, age) in flags <==> h in SIX && CarriedAge(study, start + (h - 1) * 60, age)
  {
    flags := FlagStored(e, start, study, h, age);
    assert Ascending(study);
    CarryFlagMeaning(start, study, h, age);
  }

  /** Observed and missing minutes of 105, and their share. */
  predicate CoverageCounts(c: Coverage, observed: int) {
    c.observed == observed && c.missing == 105 - observed && c.ratio * 105.0 == observed as real
  }

  lemma CoverageCounted(observed: int)
    ensures CoverageCounts(CoverageOf(observed), observed)
  {
  }

  lemma {:induction false} TimesOfAscending(study: seq<Bar>)
    requires Ascending(study)
    ensures |set b | b in study :: b.ts| == |study|
  {
    var times := set b | b in study :: b.ts;
    if study != [] {
      var front, last := study[..|study| - 1], study[|study| - 1];
      TimesOfAscending(front);
      var earlier := set b | b in front :: b.ts;
      assert study == front + [last];
      assert times == earlier + {last.ts};
      assert last.ts !in earlier;
    }
  }

  lemma RawMinutes(e: EventEvidence, study: seq<Bar>)
    requires e.postmarketStart.Some? && IsStudy(e, study)
    ensures CoverageCounts(StudyCoverage(e), if |study| < 105 then |study| else 105)
  {
    var start := e.postmarketStart.value;
    var times := set b | b in e.postmarketBars && start <= b.ts < start + STUDY_MINUTES * MINUTE :: b.ts;
    TimesOfAscending(study);
    assert times == set b | b in study :: b.ts;
    CoverageCounted(if |study| < 105 then |study| else 105);
  }

  lemma StoredCoverage(e: EventEvidence) returns (c: Coverage)
    requires Accepted(e)
    ensures c == Features(e).coverage
    ensures c == if Features(e).classification.InsufficientData? then StudyCoverage(e) else CoverageOf(|StudyBars(e)|)
  {
    c := Features(e).coverage;
  }

  /** The stored coverage counts the study's bars, cut at 105 only when there is no verdict. */
  lemma CoverageInPrices(e: EventEvidence, study: seq<Bar>) returns (c: Coverage)
    requires Accepted(e) && IsStudy(e, study)
    ensures c == Features(e).coverage
    ensures CoverageCounts(c, if Features(e).classification.InsufficientData? && |study| > 105 then 105 else |study|)
  {
    StudyRead(e, study);
    c := StoredCoverage(e);
    RawMinutes(e, study);
    CoverageCounted(|study|);
  }

  // ------------------------------------------------------------------ the stored row

  /** The measured columns of a row, each under its own name. */
  ghost predicate RowMeasures(n: Numbers, p: real, start: int, study: seq<Bar>) {
    && n.referencePrice == Some(p)
    && HorizonInPrices(n.returns1, p, study, start)
    && HorizonInPrices(n.returns5, p, study, start + 240)
    && HorizonInPrices(n.returns15, p, study, start + 840)
    && HorizonInPrices(n.returns30, p, study, start + 1740)
    && HorizonInPrices(n.returns60, p, study, start + 3540)
    && HorizonInPrices(n.returns105, p, study, start + 6240)
    && n.windowHigh.Some? && HighestReturn(n.windowHigh.value, p, study)
    && n.windowLow.Some? && LowestReturn(n.windowLow.value, p, study)
    && VwapInPrices(n.vwapProxy, study)
  }

  ghost predicate RowVolumes(n: Numbers, start: int, study: seq<Bar>) {
    && n.volume1 == Some(TradedBy(study, start)) && n.volume5 == Some(TradedBy(study, start + 240))
    && n.volume15 == Some(TradedBy(study, start + 840)) && n.volume30 == Some(TradedBy(study, start + 1740))
    && n.volume60 == Some(TradedBy(study, start + 3540)) && n.volume105 == Some(TradedBy(study, start + 6240))
  }

  /** The signal as a row stores it. */
  function RowSignal(row: StoredRow): Signal {
    Signal(row.verdict.timestamp, row.verdict.delay, row.numbers.initialReturn, row.numbers.maxFavorable,
           row.numbers.maxAdverse, row.numbers.maxRetracement)
  }

  /** Up and down are the side the trigger bar closed on; flat means that nothing triggered. */
  ghost predicate RowVerdict(row: StoredRow, v: Verdict, p: real, study: seq<Bar>, k: nat) {
    && RowSignal(row) == v.signal && row.verdict.reason == v.reason
    && (v.classification.InsufficientData? ==>
          row.verdict.status.InsufficientStatus? && row.verdict.reactionClass.None? && row.verdict.direction.None?)
    && (!v.classification.InsufficientData? ==> row.verdict.reactionClass == Some(v.classification))
    && (v.classification.NoMeaningful? ==>
          row.verdict.status.NoTriggerInWindow? && row.verdict.direction == Some(FlatRow))
    && (IsReaction(v.classification) ==>
          && row.verdict.status == FeatureRow.Complete && k < |study|
          && row.verdict.direction == Some(if study[k].close > p then UpRow else DownRow))
  }

  lemma NumbersNamed(m: Measures, s: Signal, p: real, start: int, study: seq<Bar>)
    requires study != [] && MeasuresInPrices(m, p, start, study)
    ensures RowMeasures(NumbersOf(m, s), p, start, study)
  {
    assert forall h :: h in m.horizonReturns ==> HorizonInPrices(m.horizonReturns[h], p, study, start + (h - 1) * 60);
    assert 1 in m.horizonReturns && 5 in m.horizonReturns && 15 in m.horizonReturns;
    assert 30 in m.horizonReturns && 60 in m.horizonReturns && 105 in m.horizonReturns;
  }

  lemma VolumesNamed(m: Measures, s: Signal, start: int, study: seq<Bar>)
    requires VolumesInPrices(m.cumulativeVolume, start, study)
    ensures RowVolumes(NumbersOf(m, s), start, study)
  {
    assert 1 in m.cumulativeVolume && 5 in m.cumulativeVolume && 15 in m.cumulativeVolume;
    assert 30 in m.cumulativeVolume && 60 in m.cumulativeVolume && 105 in m.cumulativeVolume;
  }

  lemma PositiveReturn(x: real, p: real, price: real)
    requires p > 0.0 && IsReturn(x, p, price)
    ensures x > 0.0 <==> price > p
  {
    ReturnOrder(p, 0.0, x);
  }

  lemma VerdictNamed(row: StoredRow, v: Verdict, m: Measures, p: real, start: int, study: seq<Bar>, k: nat)
    requires p > 0.0 && VerdictInPrices(v, m, p, start, study, k)
    requires row.numbers == NumbersOf(m, v.signal) && row.verdict == VerdictedOf(v, MissingFields(row.numbers))
    ensures RowVerdict(row, v, p, study, k)
  {
    if Complete(m) && k + 1 < |study| {
      PositiveReturn(v.signal.initialReturn.value, p, study[k].close);
    }
  }

  /** The stored row of an accepted event: every column holds the value its name promises. */
  lemma RowInPrices(e: EventEvidence, p: real, study: seq<Bar>) returns (row: StoredRow, start: int, v: Verdict, k: nat)
    requires Accepted(e) && IsStudy(e, study) && IsPreClose(e, p)
    ensures row == BuildRow(e, Features(e)) && e.postmarketStart == Some(start) && v == Stored(Features(e))
    ensures study != [] && TriggersAt(p, study, k)
    ensures RowMeasures(row.numbers, p, start, study) && RowVolumes(row.numbers, start, study)
    ensures RowVerdict(row, v, p, study, k)
  {
    var m: Measures;
    start, m, v, k := FeaturesInPrices(e, p, study);
    row := RowParts(e, m, v);
    NumbersNamed(m, v.signal, p, start, study);
    VolumesNamed(m, v.signal, start, study);
    VerdictNamed(row, v, m, p, start, study, k);
  }

  lemma RowParts(e: EventEvidence, m: Measures, v: Verdict) returns (row: StoredRow)
    requires m == Features(e).measures && v == Stored(Features(e))
    ensures row == BuildRow(e, Features(e)) && row.numbers == NumbersOf(m, v.signal)
    ensures row.verdict == VerdictedOf(v, MissingFields(row.numbers))
  {
    row := BuildRow(e, Features(e));
  }

  // ------------------------------------------------------------------ rejected events

  predicate Covered(e: EventEvidence) {
    e.regularCovered && e.postmarketCovered
  }

  predicate Bounded(e: EventEvidence) {
    e.regularStart.Some? && e.regularEnd.Some? && e.postmarketStart.Some? && e.postmarketEnd.Some?
  }

  predicate Adjacent(e: EventEvidence)
    requires Bounded(e)
  {
    e.regularStart.value < e.regularEnd.value == e.postmarketStart.value < e.postmarketEnd.value
  }

  predicate Fresh(e: EventEvidence)
    requires Bounded(e)
  {
    && (e.regularStale ==> e.regularReceivedAt.Some? && e.regularReceivedAt.value >= e.regularEnd.value)
    && (e.postmarketStale ==> e.postmarketReceivedAt.Some? && e.postmarketReceivedAt.value >= e.postmarketEnd.value)
  }

  ghost predicate Flagged(e: EventEvidence) {
    exists flag :: flag in e.flags && flag in FATAL
  }

  ghost predicate WellFormed(bars: seq<Bar>) {
    forall b :: b in bars ==> Tradable(b)
  }

  ghost predicate Inside(bars: seq<Bar>, start: int, end: int) {
    forall b :: b in bars ==> start <= b.ts < end
  }

  /** The first gate that the evidence fails, in the engine's order. */
  ghost predicate FailsFirst(e: EventEvidence, reason: Reason) {
    match reason
    case MissingCoverage => !Covered(e)
    case MissingPhaseBounds => Covered(e) && !Bounded(e)
    case InvalidPhaseBounds => Covered(e) && Bounded(e) && !Adjacent(e)
    case StaleResponse => Covered(e) && Bounded(e) && Adjacent(e) && !Fresh(e)
    case FatalFlags(_) => Covered(e) && Bounded(e) && Adjacent(e) && Fresh(e) && Flagged(e)
    case EarlyClose => Covered(e) && Bounded(e) && Adjacent(e) && Fresh(e) && !Flagged(e) && !e.opensAtFour
    case InvalidBar(Regular, _) => SoundCoverage(e) && !WellFormed(e.regularBars)
    case InvalidBar(Postmarket, _) => SoundCoverage(e) && WellFormed(e.regularBars) && !WellFormed(e.postmarketBars)
    case RegularBarOutside => BarsSound(e) && !RegularInside(e)
    case PostmarketBarOutside => BarsSound(e) && RegularInside(e) && !PostmarketInside(e)
    case DuplicateTimestamp => BarsInside(e) && !OneATime(e)
    case CoverageEndsEarly => BarsInside(e) && OneATime(e) && !CoversStudy(e)
    case NoRegularBars => BarsInside(e) && OneATime(e) && CoversStudy(e) && e.regularBars == []
    case TooFewPostmarketBars =>
      && BarsInside(e) && OneATime(e) && CoversStudy(e) && e.regularBars != []
      && !(exists study :: IsStudy(e, study) && |study| >= 5)
    case FinalMinuteMissing =>
      && BarsInside(e) && OneATime(e) && CoversStudy(e) && e.regularBars != []
      && (exists study :: IsStudy(e, study) && |study| >= 5) && !(exists p :: IsPreClose(e, p))
    case _ => false
  }

  ghost predicate BarsSound(e: EventEvidence) {
    SoundCoverage(e) && WellFormed(e.regularBars) && WellFormed(e.postmarketBars)
  }

  ghost predicate RegularInside(e: EventEvidence)
    requires Bounded(e)
  {
    Inside(e.regularBars, e.regularStart.value, e.regularEnd.value)
  }

  ghost predicate PostmarketInside(e: EventEvidence)
    requires Bounded(e)
  {
    Inside(e.postmarketBars, e.postmarketStart.value, e.postmarketEnd.value)
  }

  ghost predicate BarsInside(e: EventEvidence) {
    BarsSound(e) && RegularInside(e) && PostmarketInside(e)
  }

  ghost predicate OneATime(e: EventEvidence) {
    DistinctTimes(e.regularBars) && DistinctTimes(e.postmarketBars)
  }

  predicate CoversStudy(e: EventEvidence)
    requires Bounded(e)
  {
    e.postmarketStart.value + 6300 <= e.postmarketEnd.value
  }

  lemma CoverageFails(e: EventEvidence)
    requires CoverageRejection(e).Some?
    ensures FailsFirst(e, CoverageRejection(e).value)
  {
    FatalMeaning(e.flags);
  }

  lemma DefectFails(e: EventEvidence)
    requires CoverageRejection(e).None? && DefectRejection(e).Some?
    ensures FailsFirst(e, DefectRejection(e).value)
  {
    CoverageMeaning(e);
    NoFirstDefect(e.regularBars);
    NoFirstDefect(e.postmarketBars);
  }

  /** The study of evidence whose bars are sound, and its pre-close bar. */
  lemma SoundStudy(e: EventEvidence)
    requires BarsInside(e) && OneATime(e)
    ensures IsStudy(e, StudyBars(e)) && forall study :: IsStudy(e, study) ==> study == StudyBars(e)
    ensures PreCloseBar(e).Some? <==> exists p :: IsPreClose(e, p)
    ensures PreCloseBar(e).Some? ==> PreCloseBar(e).value.close > 0.0
  {
    WindowContents(e.postmarketBars, e.postmarketStart.value, StudyEnd(e));
    forall study | IsStudy(e, study) ensures study == StudyBars(e) {
      AscendingUnique(study, StudyBars(e));
    }
    var t := e.regularEnd.value - 60;
    DeduplicatedAt(e.regularBars, t);
    if PreCloseBar(e).Some? {
      assert IsPreClose(e, PreCloseBar(e).value.close);
    }
  }

  lemma BarsFail(e: EventEvidence)
    requires CoverageRejection(e).None? && DefectRejection(e).None? && BarsRejection(e).Some?
    ensures FailsFirst(e, BarsRejection(e).value)
  {
    CoverageMeaning(e);
    NoFirstDefect(e.regularBars);
    NoFirstDefect(e.postmarketBars);
    if BarsInside(e) {
      InsideFails(e);
    }
  }

  lemma InsideFails(e: EventEvidence)
    requires BarsInside(e) && BarsRejection(e).Some?
    ensures FailsFirst(e, BarsRejection(e).value)
  {
    DeduplicatedLossless(e.regularBars);
    DeduplicatedLossless(e.postmarketBars);
    if OneATime(e) {
      SoundStudy(e);
      NothingLost(e.regularBars);
    }
  }

  lemma NothingLost(bars: seq<Bar>)
    requires DistinctTimes(bars)
    ensures Deduplicated(bars) == [] <==> bars == []
  {
    DeduplicatedLossless(bars);
  }

  /** A rejected event stores no measure and no signal, and names the first gate it fails. */
  lemma RejectedAnswer(e: EventEvidence) returns (f: ReactionFeatures)
    requires !Accepted(e)
    ensures f == Features(e) && f.classification == InsufficientData
    ensures f.reason.Some? && FailsFirst(e, f.reason.value)
    ensures f.signal == NO_SIGNAL && f.measures.preClose.None? && f.measures.vwapProxy.None?
    ensures f.measures.windowHigh.None? && f.measures.windowLow.None? && f.measures.analyzedThrough.None?
    ensures forall h :: h in SIX ==> h in f.measures.horizonReturns && f.measures.horizonReturns[h].None?
    ensures forall h :: h in SIX ==> h in f.measures.cumulativeVolume && f.measures.cumulativeVolume[h].None?
  {
    HorizonsAreSix();
    f := Features(e);
    RejectionFails(e);
  }

  lemma RejectionFails(e: EventEvidence)
    requires Rejection(e).Some?
    ensures FailsFirst(e, Rejection(e).value)
  {
    if CoverageRejection(e).Some? {
      CoverageFails(e);
    } else if DefectRejection(e).Some? {
      DefectFails(e);
    } else {
      BarsFail(e);
    }
  }

  // ------------------------------------------------------------------ what every row carries

  /** Start and end of the postmarket and, twice, the study's end, when the study fits inside; else nothing. */
  predicate WindowTold(w: Window, start: Option<int>, end: Option<int>) {
    if start.Some? && end.Some? && start.value < end.value && start.value + 6300 <= end.value then
      && w.start == start && w.end == end
      && w.featureCutoff == Some(start.value + 6300) && w.labelCutoff == w.featureCutoff
    else w.start.None? && w.end.None? && w.featureCutoff.None? && w.labelCutoff.None?
  }

  predicate ProvenanceTold(p: Provenance, e: EventEvidence) {
    && p.detectorVersion == "fixed-preclose-2pct-v1" && p.classifierVersion == "path-retention-v1"
    && (p.regularMode, p.regularHash, p.regularStale) == (e.regularMode, e.regularHash, e.regularStale)
    && (p.postmarketMode, p.postmarketHash, p.postmarketStale)
       == (e.postmarketMode, e.postmarketHash, e.postmarketStale)
  }

  lemma FeaturesTold(e: EventEvidence, f: ReactionFeatures)
    requires f == Features(e)
    ensures f.symbol == e.symbol && f.earningsDate == e.earningsDate && f.provenance == ProvenanceOf(e)
  {
  }

  lemma WindowOfRow(e: EventEvidence)
    ensures WindowTold(StudyWindow(e), e.postmarketStart, e.postmarketEnd)
  {
  }

  /** Every row, of an accepted event or a rejected one, names its event, versions, window, the
      bars it had and the responses they came from. */
  lemma RowFrame(e: EventEvidence) returns (row: StoredRow)
    ensures row == BuildRow(e, Features(e))
    ensures (row.symbol, row.earningsDate) == (e.symbol, e.earningsDate)
    ensures row.featureVersion == "earnings-reaction-v3" && row.algorithmName == "earnings_postmarket_reaction"
    ensures WindowTold(row.window, e.postmarketStart, e.postmarketEnd)
    ensures row.sourceBarCount == |e.regularBars| + |e.postmarketBars|
    ensures ProvenanceTold(row.provenance, e) && row.flags == Features(e).flags && row.coverage == Features(e).coverage
  {
    var f := Features(e);
    FeaturesTold(e, f);
    WindowOfRow(e);
    row := BuildRow(e, f);
  }
}
