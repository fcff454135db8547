/** What the reaction engine's answers mean: retention, causality, envelopes, and
    which inputs it is indifferent to. */
module ReactionLaws {
  import opened Sequences
  import opened Bars
  import opened Reactions

  /** Bar timestamps are whole minutes from the start of the postmarket phase. */
  ghost predicate Aligned(e: EventEvidence) {
    e.postmarketStart.Some? && forall b :: b in e.postmarketBars ==> (b.ts - e.postmarketStart.value) % MINUTE == 0
  }

  ghost predicate Tradable(b: Bar) {
    SoundPrices(b) && b.volume.Some? && b.volume.value >= 0
  }

  lemma DefectFree(b: Bar)
    ensures BarDefect(b).None? <==> Tradable(b)
  {
  }

  lemma {:induction false} NoFirstDefect(bars: seq<Bar>)
    ensures FirstDefect(bars).None? <==> forall b :: b in bars ==> Tradable(b)
  {
    if bars != [] {
      NoFirstDefect(bars[1..]);
      DefectFree(bars[0]);
      assert bars == [bars[0]] + bars[1..];
    }
  }

  // ------------------------------------------------------------------ accepted evidence

  lemma AcceptedBars(e: EventEvidence)
    requires Accepted(e)
    ensures forall b :: b in e.postmarketBars ==> Tradable(b)
    ensures && DistinctTimes(e.regularBars)
            && DistinctTimes(e.postmarketBars)
  {
    NoFirstDefect(e.postmarketBars);
    DeduplicatedLossless(e.regularBars);
    DeduplicatedLossless(e.postmarketBars);
  }

  /** Evidence that passes every gate, gate by gate. */
  lemma AcceptedWhen(e: EventEvidence, preClose: Bar)
    requires CoverageRejection(e).None?
    requires FirstDefect(e.regularBars).None? && FirstDefect(e.postmarketBars).None?
    requires forall b :: b in e.regularBars ==> e.regularStart.value <= b.ts < e.regularEnd.value
    requires forall b :: b in e.postmarketBars ==> e.postmarketStart.value <= b.ts < e.postmarketEnd.value
    requires DistinctTimes(e.regularBars) && DistinctTimes(e.postmarketBars)
    requires StudyEnd(e) <= e.postmarketEnd.value && |StudyBars(e)| >= MIN_POSTMARKET_BARS
    requires At(e.regularBars, e.regularEnd.value - MINUTE) == Some(preClose) && preClose.close > 0.0
    ensures Accepted(e) && PreClose(e) == preClose.close
  {
    DeduplicatedLossless(e.regularBars);
    DeduplicatedLossless(e.postmarketBars);
    DeduplicatedAt(e.regularBars, e.regularEnd.value - MINUTE);
  }

  ghost predicate InStudy(e: EventEvidence, b: Bar)
    requires HasBounds(e)
  {
    b in e.postmarketBars && e.postmarketStart.value <= b.ts < StudyEnd(e)
  }

  /** The study bars are exactly the postmarket bars inside the 105 minutes, in time order. */
  lemma StudyContents(e: EventEvidence)
    requires Accepted(e)
    ensures Ascending(StudyBars(e))
    ensures forall b :: b in StudyBars(e) <==> InStudy(e, b)
    ensures forall b :: b in StudyBars(e) ==> Tradable(b)
  {
    AcceptedBars(e);
    WindowContents(e.postmarketBars, e.postmarketStart.value, StudyEnd(e));
  }

  lemma WindowContents(bars: seq<Bar>, lo: int, hi: int)
    requires DistinctTimes(bars)
    ensures var study := Filter(Deduplicated(bars), InWindow(lo, hi));
            && Ascending(study)
            && forall b :: b in study <==> b in bars && lo <= b.ts < hi
  {
    DeduplicatedAscending(bars);
    DeduplicatedLossless(bars);
    SameContents(Deduplicated(bars), bars);
    FilterMembers(Deduplicated(bars), InWindow(lo, hi));
    FilterAscending(Deduplicated(bars), InWindow(lo, hi));
  }

  lemma FilterAscending(s: seq<Bar>, p: Bar -> bool)
    requires Ascending(s)
    ensures Ascending(Filter(s, p))
  {
    forall i, j | 0 <= i < j < |Filter(s, p)| ensures Filter(s, p)[i].ts < Filter(s, p)[j].ts {
      var a, b := FilterOrder(s, p, i, j);
    }
  }

  // ------------------------------------------------------------------ signals

  /** A study window that ends in a confirmed signal at position `k`. */
  ghost predicate Signals(p: real, start: int, study: seq<Bar>, k: nat) {
    && p > 0.0
    && k == TriggerIndex(Map(study, CloseReturn(p)))
    && k + 1 < |study|
    && MissingCheckpoints(p, start, study) == []
    && VwapProxy(study).Some?
  }

  lemma SignalVerdict(p: real, start: int, study: seq<Bar>, k: nat)
    requires Signals(p, start, study, k)
    ensures VerdictOf(p, start, study) == Confirmed(PathOf(p, start, study, k), study[k].ts + MINUTE)
    ensures VerdictOf(p, start, study).classification in {Continuation, Fade, Delayed, Whipsaw}
  {
  }

  /** A complete window without a close at the threshold. */
  ghost predicate NeverTriggers(p: real, start: int, study: seq<Bar>)
    requires p != 0.0
  {
    && MissingCheckpoints(p, start, study) == [] && VwapProxy(study).Some?
    && TriggerIndex(Map(study, CloseReturn(p))) == |study|
  }

  /** The remaining verdicts carry no signal, and each names its reason. */
  lemma NoSignalVerdict(p: real, start: int, study: seq<Bar>)
    requires p > 0.0 && !Signals(p, start, study, TriggerIndex(Map(study, CloseReturn(p))))
    ensures var v := VerdictOf(p, start, study);
            && v.signal == NO_SIGNAL && v.reason.Some?
            && (v.classification.NoMeaningful? || v.classification.InsufficientData?)
            && (v.classification.NoMeaningful? <==> NeverTriggers(p, start, study))
  {
  }

  lemma NothingMissing(p: real, start: int, study: seq<Bar>, m: int)
    requires p != 0.0 && MissingCheckpoints(p, start, study) == [] && m in [1, 5, 15, 30, 60, 105]
    ensures HorizonReturn(p, start, study, m).Some?
  {
    FilterMembers(HORIZONS_MINUTES, MissingAt(p, start, study));
    assert MissingAt(p, start, study)(m) == HorizonReturn(p, start, study, m).None?;
  }

  lemma LastIsLatest(bars: seq<Bar>, target: int)
    requires Ascending(bars) && bars != []
    ensures var last := bars[|bars| - 1];
            forall b :: b in bars ==> b.ts <= last.ts && (target - b.ts) / MINUTE >= (target - last.ts) / MINUTE
  {
    var last := bars[|bars| - 1];
    forall b | b in bars ensures b.ts <= last.ts && (target - b.ts) / MINUTE >= (target - last.ts) / MINUTE {
      var i :| 0 <= i < |bars| && bars[i] == b;
    }
  }

  /** A checkpoint reads the latest close at or before its target, at most ten minutes old,
      and gives up exactly when there is none. */
  lemma {:induction false} CheckpointIsLatest(bars: seq<Bar>, target: int)
    requires Ascending(bars)
    ensures var found := Checkpoint(bars, target);
            found.Some? ==>
              && found.value.0 in bars && found.value.0.ts <= target
              && found.value.1 == (target - found.value.0.ts) / MINUTE <= MAX_CHECKPOINT_CARRY_MINUTES
              && forall b :: b in bars && b.ts <= target ==> b.ts <= found.value.0.ts
    ensures Checkpoint(bars, target).None? ==>
              forall b :: b in bars && b.ts <= target ==> (target - b.ts) / MINUTE > MAX_CHECKPOINT_CARRY_MINUTES
  {
    if bars != [] {
      var rest, last := bars[..|bars| - 1], bars[|bars| - 1];
      assert bars == rest + [last];
      LastIsLatest(bars, target);
      if last.ts > target {
        CheckpointIsLatest(rest, target);
      }
    }
  }

  // ------------------------------------------------------------------ retention

  lemma RetracementMeaning(favorable: real, terminal: real)
    requires favorable > 0.0
    ensures && Retracement(favorable, terminal).Some?
            && Retracement(favorable, terminal).value >= 0.0
    ensures Retracement(favorable, terminal).value > FADE_RETRACEMENT_PCT <==> terminal < favorable / 2.0
  {
    var share := (favorable - terminal) / favorable;
    assert share * favorable == favorable - terminal;
    assert share > 0.5 <==> share * favorable > 0.5 * favorable;
  }

  ghost predicate BothSidesFrom(closes: seq<real>, k: nat) {
    exists i, j :: k <= i < |closes| && k <= j < |closes| && closes[i] >= REACTION_THRESHOLD_PCT
        && closes[j] <= -REACTION_THRESHOLD_PCT
  }

  lemma WhipsawMeaning(closes: seq<real>, k: nat)
    requires k < |closes|
    ensures MaxOf(closes[k..]) >= REACTION_THRESHOLD_PCT && MinOf(closes[k..]) <= -REACTION_THRESHOLD_PCT
            <==> BothSidesFrom(closes, k)
  {
    var s := closes[k..];
    MaxOfGreatest(s);
    MinOfLeast(s);
    var i :| 0 <= i < |s| && s[i] == MaxOf(s);
    var j :| 0 <= j < |s| && s[j] == MinOf(s);
    assert closes[k + i] == MaxOf(s) && closes[k + j] == MinOf(s);
    if BothSidesFrom(closes, k) {
      var a, b :| k <= a < |closes| && k <= b < |closes| && closes[a] >= REACTION_THRESHOLD_PCT
          && closes[b] <= -REACTION_THRESHOLD_PCT;
      assert s[a - k] == closes[a] && s[b - k] == closes[b];
    }
  }

  /** The class of a path, read from its moves instead of from a percentage. */
  lemma PathClass(path: Path)
    requires path.favorable > 0.0
    ensures Classify(path) ==
            if path.whipsaw then Whipsaw
            else if path.terminal < path.favorable / 2.0 then Fade
            else if path.delay >= DELAYED_AFTER_MINUTES then Delayed
            else Continuation
  {
    RetracementMeaning(path.favorable, path.terminal);
  }

  lemma PathSigns(closes: seq<real>, k: nat, highs: seq<real>, lows: seq<real>, delay: int)
    requires k < |closes| && highs != [] && lows != [] && Abs(closes[k]) >= REACTION_THRESHOLD_PCT
    ensures var path := PathFrom(closes, k, highs, lows, delay);
            && Directed(path.direction, closes[k]) == Abs(closes[k])
            && path.favorable >= Abs(closes[k]) >= REACTION_THRESHOLD_PCT
            && path.adverse <= 0.0
            && path.terminal == Directed(path.direction, closes[|closes| - 1])
            && (path.whipsaw <==> BothSidesFrom(closes, k))
  {
    WhipsawMeaning(closes, k);
  }

  /** What each class says about the closes of a signalled window. */
  lemma WindowClass(p: real, start: int, study: seq<Bar>, k: nat)
    requires Signals(p, start, study, k)
    ensures var path, closes := PathOf(p, start, study, k), Map(study, CloseReturn(p));
            && path.favorable >= Abs(closes[k]) >= REACTION_THRESHOLD_PCT
            && path.initial == closes[k] && path.direction == SignalDirection(closes[k])
            && Directed(path.direction, closes[k]) == Abs(closes[k])
            && path.adverse <= 0.0
            && path.terminal == Directed(path.direction, closes[|closes| - 1])
            && Classify(path) ==
               if BothSidesFrom(closes, k) then Whipsaw
               else if path.terminal < path.favorable / 2.0 then Fade
               else if path.delay >= DELAYED_AFTER_MINUTES then Delayed
               else Continuation
  {
    var closes := Map(study, CloseReturn(p));
    var d := SignalDirection(closes[k]);
    var after := study[k + 1..];
    PathSigns(closes, k, Map(after, DirectionalHigh(p, d)), Map(after, DirectionalLow(p, d)),
              DelayMinutes(start, study[k].ts + MINUTE));
    PathClass(PathOf(p, start, study, k));
  }

  /** When every bar starts no later than minute 104, the 105-minute checkpoint is the last close. */
  lemma TerminalCheckpoint(p: real, start: int, study: seq<Bar>)
    requires p > 0.0 && Ascending(study) && study != [] && MissingCheckpoints(p, start, study) == []
    requires study[|study| - 1].ts <= Target(start, 105)
    ensures HorizonReturn(p, start, study, 105) == Some(PctChange(p, study[|study| - 1].close))
  {
    NothingMissing(p, start, study, 105);
  }

  lemma LastBarAligned(e: EventEvidence)
    requires Accepted(e) && Aligned(e)
    ensures Ascending(StudyBars(e))
    ensures var study := StudyBars(e); study[|study| - 1].ts <= Target(e.postmarketStart.value, 105)
  {
    StudyContents(e);
    var last := StudyBars(e)[|StudyBars(e)| - 1];
    assert last in StudyBars(e);
    assert InStudy(e, last);
  }

  /** Exactly when each class is assigned, in terms of the closes, the best favorable move
      and the 105-minute return `kept`. */
  ghost predicate ClassifiedBy(v: Verdict, r105: Option<real>, closes: seq<real>, k: nat) {
    && k < |closes|
    && v.signal.initialReturn == Some(closes[k])
    && v.signal.maxFavorable.Some? && v.signal.delay.Some? && r105.Some?
    && var best, kept := v.signal.maxFavorable.value, Directed(SignalDirection(closes[k]), r105.value);
       && best >= Abs(closes[k]) >= REACTION_THRESHOLD_PCT
       && v.classification ==
          if BothSidesFrom(closes, k) then Whipsaw
          else if kept < best / 2.0 then Fade
          else if v.signal.delay.value >= DELAYED_AFTER_MINUTES then Delayed
          else Continuation
  }

  /** The path behind a signalled window, with the facts the classes rest on. */
  lemma SignalPath(p: real, start: int, study: seq<Bar>, k: nat) returns (path: Path)
    requires Signals(p, start, study, k)
    ensures VerdictOf(p, start, study) == Confirmed(path, study[k].ts + MINUTE)
    ensures var closes := Map(study, CloseReturn(p));
            && path.favorable >= Abs(closes[k]) >= REACTION_THRESHOLD_PCT
            && path.initial == closes[k]
            && path.adverse <= 0.0
            && path.terminal == Directed(SignalDirection(closes[k]), closes[|closes| - 1])
            && path.delay == DelayMinutes(start, study[k].ts + MINUTE)
            && Classify(path) ==
               if BothSidesFrom(closes, k) then Whipsaw
               else if path.terminal < path.favorable / 2.0 then Fade
               else if path.delay >= DELAYED_AFTER_MINUTES then Delayed
               else Continuation
  {
    path := PathOf(p, start, study, k);
    SignalVerdict(p, start, study, k);
    WindowClass(p, start, study, k);
  }

  lemma WindowClassified(p: real, start: int, study: seq<Bar>, k: nat)
    requires Signals(p, start, study, k) && Ascending(study)
    requires study[|study| - 1].ts <= Target(start, 105)
    ensures ClassifiedBy(VerdictOf(p, start, study), HorizonReturn(p, start, study, 105), Map(study, CloseReturn(p)), k)
  {
    var path := SignalPath(p, start, study, k);
    TerminalCheckpoint(p, start, study);
    assert Map(study, CloseReturn(p))[|study| - 1] == PctChange(p, study[|study| - 1].close) by {
      MapAt(study, CloseReturn(p));
    }
  }

  /** The verdict and the 105-minute return stored for an accepted event. */
  lemma StoredVerdict(e: EventEvidence) returns (v: Verdict, r105: Option<real>)
    requires Accepted(e)
    ensures v == Stored(Features(e)) && r105 == Stored105(Features(e))
    ensures v == VerdictOf(PreClose(e), e.postmarketStart.value, StudyBars(e))
    ensures r105 == HorizonReturn(PreClose(e), e.postmarketStart.value, StudyBars(e), 105)
  {
    v, r105 := Stored(Features(e)), Stored105(Features(e));
  }

  function Stored(f: ReactionFeatures): Verdict {
    Verdict(f.classification, f.signal, f.reason)
  }

  /** A value recorded under a key, if any was. */
  function Get<T>(m: map<int, Option<T>>, key: int): Option<T> {
    if key in m then m[key] else None
  }

  function Stored105(f: ReactionFeatures): Option<real> {
    Get(f.measures.horizonReturns, 105)
  }

  predicate IsReaction(c: Classification) {
    c.Continuation? || c.Fade? || c.Delayed? || c.Whipsaw?
  }

  lemma WindowReacts(p: real, start: int, study: seq<Bar>, k: nat, v: Verdict)
    requires p > 0.0 && k == TriggerIndex(Map(study, CloseReturn(p))) && v == VerdictOf(p, start, study)
    ensures IsReaction(v.classification) <==> Signals(p, start, study, k)
    ensures v.classification.NoMeaningful? <==> NeverTriggers(p, start, study)
  {
    if Signals(p, start, study, k) {
      SignalVerdict(p, start, study, k);
    } else {
      NoSignalVerdict(p, start, study);
    }
  }

  /** The classification of minute-aligned evidence, exactly: when a reaction is stored, when
      none is, and which class it is, read from the stored values. */
  lemma ClassificationMeaning(e: EventEvidence, k: nat) returns (v: Verdict, r105: Option<real>)
    requires Accepted(e) && Aligned(e) && k == TriggerIndex(Map(StudyBars(e), CloseReturn(PreClose(e))))
    ensures v == Stored(Features(e)) && r105 == Stored105(Features(e))
    ensures IsReaction(v.classification) <==> Signals(PreClose(e), e.postmarketStart.value, StudyBars(e), k)
    ensures v.classification.NoMeaningful? <==> NeverTriggers(PreClose(e), e.postmarketStart.value, StudyBars(e))
    ensures IsReaction(v.classification) ==> ClassifiedBy(v, r105, Map(StudyBars(e), CloseReturn(PreClose(e))), k)
  {
    v, r105 := StoredVerdict(e);
    WindowReacts(PreClose(e), e.postmarketStart.value, StudyBars(e), k, v);
    if IsReaction(v.classification) {
      EventClassified(e, PreClose(e), e.postmarketStart.value, StudyBars(e), k, v, r105);
    }
  }

  lemma EventClassified(
    e: EventEvidence, p: real, start: int, study: seq<Bar>, k: nat, v: Verdict, r105: Option<real>)
    requires Accepted(e) && Aligned(e) && e.postmarketStart == Some(start) && study == StudyBars(e)
    requires Signals(p, start, study, k)
    requires v == VerdictOf(p, start, study) && r105 == HorizonReturn(p, start, study, 105)
    ensures ClassifiedBy(v, r105, Map(study, CloseReturn(p)), k)
  {
    LastBarAligned(e);
    WindowClassified(p, start, study, k);
  }

  /** A continuation or delayed breakout still stands on the signal's side at the end,
      with at least half of its best move and half of its first move kept; a fade does not;
      a whipsaw crossed the threshold on both sides. */
  ghost predicate KeepsItsMove(v: Verdict, r105: Option<real>, closes: seq<real>, k: nat) {
    && k < |closes| && v.signal.maxFavorable.Some? && r105.Some?
    && var initial, best, kept := closes[k], v.signal.maxFavorable.value, r105.value;
       && (v.classification in {Continuation, Delayed} ==>
             && (initial > 0.0 <==> kept > 0.0)
             && Abs(kept) >= best / 2.0 >= Abs(initial) / 2.0 >= REACTION_THRESHOLD_PCT / 2.0)
       && (v.classification.Fade? ==> Directed(SignalDirection(initial), kept) < best / 2.0)
       && (v.classification.Whipsaw? ==> BothSidesFrom(closes, k))
  }

  lemma ClassKeepsMove(v: Verdict, r105: Option<real>, closes: seq<real>, k: nat)
    requires ClassifiedBy(v, r105, closes, k)
    ensures KeepsItsMove(v, r105, closes, k)
  {
  }

  lemma RetentionKept(e: EventEvidence, k: nat) returns (v: Verdict, r105: Option<real>)
    requires Accepted(e) && Aligned(e) && k == TriggerIndex(Map(StudyBars(e), CloseReturn(PreClose(e))))
    requires IsReaction(Features(e).classification)
    ensures v == Stored(Features(e)) && r105 == Stored105(Features(e))
    ensures KeepsItsMove(v, r105, Map(StudyBars(e), CloseReturn(PreClose(e))), k)
  {
    v, r105 := ClassificationMeaning(e, k);
    ClassKeepsMove(v, r105, Map(StudyBars(e), CloseReturn(PreClose(e))), k);
  }

  // ------------------------------------------------------------------ concrete events

  /** Covered, fresh evidence: one regular bar in the last minute, and bars of the study window. */
  function WindowEvent(last: Bar, study: seq<Bar>): EventEvidence {
    EventEvidence(
      "AAA", 0, true, true, Some(-60), Some(0), Some(0), Some(6300), true, [last], study, [],
      Some("scheduled_capture"), Some("scheduled_capture"), Some(HASH), Some(HASH), false, false, None, None)
  }

  ghost predicate WindowBars(last: Bar, study: seq<Bar>) {
    && last.ts == -60 && Tradable(last)
    && Ascending(study) && |study| >= MIN_POSTMARKET_BARS
    && forall b :: b in study ==> Tradable(b) && 0 <= b.ts < 6300
  }

  lemma WindowEventAccepted(last: Bar, study: seq<Bar>)
    requires WindowBars(last, study)
    ensures var e := WindowEvent(last, study);
            Accepted(e) && PreClose(e) == last.close && StudyBars(e) == study
  {
    NoFirstDefect([last]);
    NoFirstDefect(study);
    WindowEventStudy(last, study);
    AcceptedWhen(WindowEvent(last, study), last);
  }

  lemma WindowEventStudy(last: Bar, study: seq<Bar>)
    requires WindowBars(last, study)
    ensures CoverageRejection(WindowEvent(last, study)).None? && StudyBars(WindowEvent(last, study)) == study
  {
    var e := WindowEvent(last, study);
    assert Filter(e.flags, IsFatal()) == [];
    WindowContents(study, 0, 6300);
    AscendingUnique(StudyBars(e), study);
  }

  function Flat(ts: int, price: real): Bar {
    Bar(ts, price, price, price, price, Some(1))
  }

  /** One trade at every horizon of the first hour, all at one price. */
  function FirstHour(price: real): seq<Bar> {
    [Flat(0, price), Flat(240, price), Flat(840, price), Flat(1740, price), Flat(3540, price)]
  }

  /** The same, with a trade at the last horizon too. */
  function Steady(price: real): seq<Bar> {
    FirstHour(price) + [Flat(6240, price)]
  }

  lemma {:induction false} SomeVolumeTraded(study: seq<Bar>, i: nat)
    requires (forall j :: 0 <= j < |study| ==> Tradable(study[j])) && i < |study| && HasVolume(study[i])
    ensures TotalVolume(Filter(study, HasVolume)) > 0
  {
    if i > 0 {
      SomeVolumeTraded(study[1..], i - 1);
    } else {
      TradedVolumeSign(study[1..]);
    }
  }

  lemma {:induction false} TradedVolumeSign(study: seq<Bar>)
    requires forall j :: 0 <= j < |study| ==> Tradable(study[j])
    ensures TotalVolume(Filter(study, HasVolume)) >= 0
  {
    if study != [] {
      TradedVolumeSign(study[1..]);
    }
  }

  lemma NoneMissing(p: real, start: int, study: seq<Bar>)
    requires p != 0.0
    requires forall i :: 0 <= i < |HORIZONS_MINUTES| ==> HorizonReturn(p, start, study, HORIZONS_MINUTES[i]).Some?
    ensures MissingCheckpoints(p, start, study) == []
  {
    FilterNothing(HORIZONS_MINUTES, MissingAt(p, start, study));
  }

  lemma CheckpointNear(p: real, study: seq<Bar>, m: int, i: nat)
    requires p != 0.0 && Ascending(study) && i < |study| && 0 <= Target(0, m) - study[i].ts < 660
    ensures HorizonReturn(p, 0, study, m).Some?
  {
    CheckpointIsLatest(study, Target(0, m));
    assert study[i] in study;
  }

  lemma SteadySignals(price: real)
    requires price >= 102.0
    ensures WindowBars(Flat(-60, 100.0), Steady(price)) && Signals(100.0, 0, Steady(price), 0)
  {
    var study := Steady(price);
    SomeVolumeTraded(study, 0);
    CheckpointNear(100.0, study, 1, 0);
    CheckpointNear(100.0, study, 5, 1);
    CheckpointNear(100.0, study, 15, 2);
    CheckpointNear(100.0, study, 30, 3);
    CheckpointNear(100.0, study, 60, 4);
    CheckpointNear(100.0, study, 105, 5);
    NoneMissing(100.0, 0, study);
    MapAt(study, CloseReturn(100.0));
    assert Map(study, CloseReturn(100.0))[0] == PctChange(100.0, price);
  }
}
