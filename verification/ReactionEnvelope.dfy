/** Bounds every measured number stays inside: the fixed window's low and high. */
module ReactionEnvelope {
  import opened Sequences
  import opened Bars
  import opened Reactions
  import opened ReactionLaws

  ghost predicate AllTradable(study: seq<Bar>) {
    forall i :: 0 <= i < |study| ==> Tradable(study[i])
  }

  function WindowHigh(p: real, study: seq<Bar>): real
    requires p != 0.0 && study != []
  {
    MaxOf(Map(study, HighReturn(p)))
  }

  function WindowLow(p: real, study: seq<Bar>): real
    requires p != 0.0 && study != []
  {
    MinOf(Map(study, LowReturn(p)))
  }

  lemma BarOrder(p: real, b: Bar)
    requires p > 0.0 && Tradable(b)
    ensures PctChange(p, b.low) <= PctChange(p, b.close) <= PctChange(p, b.high)
  {
    PctChangeMonotone(p, b.low, b.close);
    PctChangeMonotone(p, b.close, b.high);
  }

  /** Every bar of the window trades inside the window's extreme returns. */
  lemma InsideWindow(p: real, study: seq<Bar>, i: nat)
    requires p > 0.0 && i < |study| && AllTradable(study)
    ensures WindowLow(p, study) <= PctChange(p, study[i].low) <= PctChange(p, study[i].close)
            <= PctChange(p, study[i].high) <= WindowHigh(p, study)
  {
    BarOrder(p, study[i]);
    MapAt(study, HighReturn(p));
    MapAt(study, LowReturn(p));
    MaxOfGreatest(Map(study, HighReturn(p)));
    MinOfLeast(Map(study, LowReturn(p)));
    assert Map(study, HighReturn(p))[i] == PctChange(p, study[i].high);
    assert Map(study, LowReturn(p))[i] == PctChange(p, study[i].low);
  }

  /** Every checkpoint return lies inside the window. */
  lemma CheckpointInside(p: real, start: int, study: seq<Bar>, m: int)
    requires p > 0.0 && study != [] && Ascending(study) && AllTradable(study)
    ensures HorizonReturn(p, start, study, m).Some? ==>
              WindowLow(p, study) <= HorizonReturn(p, start, study, m).value <= WindowHigh(p, study)
  {
    CheckpointIsLatest(study, Target(start, m));
    var found := Checkpoint(study, Target(start, m));
    if found.Some? {
      var i :| 0 <= i < |study| && study[i] == found.value.0;
      InsideWindow(p, study, i);
    }
  }

  /** The window as seen from the signal's side: its best and its worst return. */
  function BestSide(d: Direction, low: real, high: real): real {
    Max2(Directed(d, high), Directed(d, low))
  }

  function WorstSide(d: Direction, low: real, high: real): real {
    Min2(Directed(d, high), Directed(d, low))
  }

  lemma DirectedBar(p: real, d: Direction, study: seq<Bar>, i: nat)
    requires p > 0.0 && i < |study| && AllTradable(study)
    ensures DirectionalHigh(p, d)(study[i]) <= BestSide(d, WindowLow(p, study), WindowHigh(p, study))
    ensures WorstSide(d, WindowLow(p, study), WindowHigh(p, study)) <= DirectionalLow(p, d)(study[i])
  {
    InsideWindow(p, study, i);
  }

  /** Extremes over the later bars of the window stay inside the window. */
  lemma HighsInside(p: real, d: Direction, study: seq<Bar>, k: nat)
    requires p > 0.0 && k < |study| && AllTradable(study)
    ensures MaxOf(Map(study[k..], DirectionalHigh(p, d))) <= BestSide(d, WindowLow(p, study), WindowHigh(p, study))
  {
    var tail := study[k..];
    MaxOfGreatest(Map(tail, DirectionalHigh(p, d)));
    MapAt(tail, DirectionalHigh(p, d));
    var i :| 0 <= i < |tail| && Map(tail, DirectionalHigh(p, d))[i] == MaxOf(Map(tail, DirectionalHigh(p, d)));
    assert tail[i] == study[k + i];
    DirectedBar(p, d, study, k + i);
  }

  lemma LowsInside(p: real, d: Direction, study: seq<Bar>, k: nat)
    requires p > 0.0 && k < |study| && AllTradable(study)
    ensures WorstSide(d, WindowLow(p, study), WindowHigh(p, study)) <= MinOf(Map(study[k..], DirectionalLow(p, d)))
  {
    var tail := study[k..];
    MinOfLeast(Map(tail, DirectionalLow(p, d)));
    MapAt(tail, DirectionalLow(p, d));
    var i :| 0 <= i < |tail| && Map(tail, DirectionalLow(p, d))[i] == MinOf(Map(tail, DirectionalLow(p, d)));
    assert tail[i] == study[k + i];
    DirectedBar(p, d, study, k + i);
  }

  lemma CloseInside(p: real, study: seq<Bar>, k: nat)
    requires p > 0.0 && k < |study| && AllTradable(study)
    ensures WindowLow(p, study) <= Map(study, CloseReturn(p))[k] <= WindowHigh(p, study)
  {
    MapAt(study, CloseReturn(p));
    InsideWindow(p, study, k);
    assert Map(study, CloseReturn(p))[k] == PctChange(p, study[k].close);
  }

  /** Some bar trades at the pre-close, or on the far side of it as seen from the signal. */
  ghost predicate ReachesPreClose(p: real, d: Direction, study: seq<Bar>) {
    exists i :: 0 <= i < |study| && (if d.Up? then study[i].low <= p else study[i].high >= p)
  }

  lemma WorstSideMeaning(p: real, d: Direction, study: seq<Bar>)
    requires p > 0.0 && study != [] && AllTradable(study)
    ensures WorstSide(d, WindowLow(p, study), WindowHigh(p, study)) <= 0.0 <==> ReachesPreClose(p, d, study)
  {
    InsideWindow(p, study, 0);
    var i := LowestBar(p, study);
    var j := HighestBar(p, study);
    SignOfChange(p, study[i].low);
    SignOfChange(p, study[j].high);
  }

  lemma SignOfChange(p: real, x: real)
    requires p > 0.0
    ensures PctChange(p, x) <= 0.0 <==> x <= p
    ensures PctChange(p, x) >= 0.0 <==> x >= p
  {
    var share := (x - p) / p;
    assert share * p == x - p;
  }

  /** The side of the pre-close a bar closes on. */
  function CloseSide(p: real, b: Bar): Direction {
    if b.close > p then Up else Down
  }

  /** The excursions of a signal towards `d` against the window: the favorable one is always
      inside it, the adverse one exactly when `reaches`. */
  ghost predicate Enveloped(s: Signal, d: Direction, low: real, high: real, reaches: bool) {
    && s.initialReturn.Some? && s.maxFavorable.Some? && s.maxAdverse.Some?
    && var best, worst := BestSide(d, low, high), WorstSide(d, low, high);
       && low <= s.initialReturn.value <= high
       && worst <= s.maxFavorable.value <= best
       && Min2(0.0, worst) <= s.maxAdverse.value <= 0.0
       && (worst <= s.maxAdverse.value <= best <==> reaches)
  }

  lemma TriggerSide(p: real, study: seq<Bar>, k: nat)
    requires p > 0.0 && k < |study|
    ensures SignalDirection(Map(study, CloseReturn(p))[k]) == CloseSide(p, study[k])
  {
    MapAt(study, CloseReturn(p));
    SignOfChange(p, study[k].close);
    assert Map(study, CloseReturn(p))[k] == PctChange(p, study[k].close);
  }

  lemma WindowEnveloped(p: real, start: int, study: seq<Bar>, k: nat)
    requires Signals(p, start, study, k) && AllTradable(study)
    ensures var d := CloseSide(p, study[k]);
            Enveloped(VerdictOf(p, start, study).signal, d, WindowLow(p, study), WindowHigh(p, study),
                      ReachesPreClose(p, d, study))
  {
    var d := SignalDirection(Map(study, CloseReturn(p))[k]);
    SignalVerdict(p, start, study, k);
    TriggerSide(p, study, k);
    CloseInside(p, study, k);
    HighsInside(p, d, study, k + 1);
    LowsInside(p, d, study, k + 1);
    WorstSideMeaning(p, d, study);
  }

  lemma AcceptedTradable(e: EventEvidence)
    requires Accepted(e)
    ensures Ascending(StudyBars(e)) && AllTradable(StudyBars(e))
  {
    StudyContents(e);
    forall i | 0 <= i < |StudyBars(e)| ensures Tradable(StudyBars(e)[i]) {
      assert StudyBars(e)[i] in StudyBars(e);
    }
  }

  /** An accepted event stores a signal exactly when its window confirms one. It stays inside
      the stored window, but for the adverse excursion of a window that never trades back to
      the pre-close from the side its trigger bar closed on. */
  lemma ReactionEnveloped(e: EventEvidence, k: nat)
    requires Accepted(e) && k == TriggerIndex(Map(StudyBars(e), CloseReturn(PreClose(e))))
    ensures Features(e).signal != NO_SIGNAL <==> Signals(PreClose(e), e.postmarketStart.value, StudyBars(e), k)
    ensures var (f, p, study) := (Features(e), PreClose(e), StudyBars(e));
            f.signal != NO_SIGNAL ==>
              && f.measures.windowLow.Some? && f.measures.windowHigh.Some? && k < |study|
              && var d := CloseSide(p, study[k]);
                 Enveloped(f.signal, d, f.measures.windowLow.value, f.measures.windowHigh.value,
                           ReachesPreClose(p, d, study))
  {
    var p, start, study := PreClose(e), e.postmarketStart.value, StudyBars(e);
    AcceptedTradable(e);
    var v, _ := StoredVerdict(e);
    var m := StoredMeasures(e);
    if Signals(p, start, study, k) {
      WindowEnveloped(p, start, study, k);
    } else {
      NoSignalVerdict(p, start, study);
    }
  }

  lemma AdverseAbove(e: EventEvidence, p: real, start: int, study: seq<Bar>, k: nat)
    requires Accepted(e) && p == PreClose(e) && start == e.postmarketStart.value && study == StudyBars(e)
    requires Signals(p, start, study, k) && WindowLow(p, study) > 0.0
    ensures AdverseOutside(Features(e))
  {
    AcceptedTradable(e);
    WindowEnveloped(p, start, study, k);
    var v, _ := StoredVerdict(e);
    var m := StoredMeasures(e);
  }

  /** The stored adverse excursion lies below every return of the stored window. */
  ghost predicate AdverseOutside(f: ReactionFeatures) {
    f.signal.maxAdverse.Some? && f.measures.windowLow.Some? && f.signal.maxAdverse.value < f.measures.windowLow.value
  }

  /** A window wholly above its pre-close: the stored adverse excursion lies outside it. */
  lemma AdverseOutsideWindow() returns (e: EventEvidence)
    ensures Accepted(e) && AdverseOutside(Features(e))
  {
    var last, study := Flat(-60, 100.0), Steady(110.0);
    e := WindowEvent(last, study);
    SteadySignals(110.0);
    WindowEventAccepted(last, study);
    SteadyLow(110.0);
    AdverseAbove(e, 100.0, 0, study, 0);
  }

  lemma SteadyLow(price: real)
    requires price > 100.0
    ensures WindowLow(100.0, Steady(price)) == PctChange(100.0, price) > 0.0
  {
    var study := Steady(price);
    MapAt(study, LowReturn(100.0));
    MinOfLeast(Map(study, LowReturn(100.0)));
    SignOfChange(100.0, price);
  }

  lemma StoredMeasures(e: EventEvidence) returns (m: Measures)
    requires Accepted(e)
    ensures m == Features(e).measures
    ensures m == MeasuresOf(PreClose(e), e.postmarketStart.value, StudyBars(e))
  {
    m := Features(e).measures;
  }

  // ------------------------------------------------------------------ volume

  lemma AddWeighted(price: real, volume: real, weighted: real, total: real, low: real, high: real)
    requires low <= price <= high && volume >= 0.0
    requires low * total <= weighted <= high * total
    ensures low * (volume + total) <= price * volume
            + weighted <= high * (volume + total)
  {
    assert low * volume <= price * volume <= high * volume;
    assert low * (volume + total) == low * volume + low * total;
    assert high * (volume + total) == high * volume + high * total;
  }

  lemma {:induction false} WeightedPriceBounds(bars: seq<Bar>, low: real, high: real)
    requires forall i :: 0 <= i < |bars| ==> VolumeOf(bars[i]) >= 0 && low <= TypicalPrice(bars[i]) <= high
    ensures TotalVolume(bars) >= 0
    ensures low * (TotalVolume(bars) as real) <= WeightedPrice(bars) <= high * (TotalVolume(bars) as real)
  {
    if bars != [] {
      var rest := bars[1..];
      WeightedPriceBounds(rest, low, high);
      AddWeighted(TypicalPrice(bars[0]), VolumeOf(bars[0]) as real, WeightedPrice(rest), TotalVolume(rest) as real, low,
                  high);
      assert TotalVolume(bars) as real == VolumeOf(bars[0]) as real + TotalVolume(rest) as real;
    }
  }

  lemma QuotientBounds(x: real, total: real, low: real, high: real)
    requires total > 0.0 && low * total <= x <= high * total
    ensures low <= x / total <= high
  {
    var q := x / total;
    assert q * total == x;
    assert q < low ==> q * total < low * total;
    assert q > high ==> q * total > high * total;
  }

  /** The volume-weighted price lies between the lowest low and the highest high traded. */
  lemma VwapInside(study: seq<Bar>, low: real, high: real)
    requires AllTradable(study)
    requires forall i :: 0 <= i < |study| ==> low <= study[i].low && study[i].high <= high
    ensures VwapProxy(study).Some? ==> low <= VwapProxy(study).value <= high
  {
    var traded := Filter(study, HasVolume);
    FilterMembers(study, HasVolume);
    forall i | 0 <= i < |traded| ensures VolumeOf(traded[i]) >= 0 && low <= TypicalPrice(traded[i]) <= high {
      assert traded[i] in study;
      var j :| 0 <= j < |study| && study[j] == traded[i];
    }
    WeightedPriceBounds(traded, low, high);
    if TotalVolume(traded) > 0 {
      QuotientBounds(WeightedPrice(traded), TotalVolume(traded) as real, low, high);
    }
  }

  lemma {:induction false} VolumeMonotone(bars: seq<Bar>, t1: int, t2: int)
    requires t1 <= t2 && forall i :: 0 <= i < |bars| ==> VolumeOf(bars[i]) >= 0
    ensures 0 <= TotalVolume(Filter(bars, UpTo(t1))) <= TotalVolume(Filter(bars, UpTo(t2)))
  {
    if bars != [] {
      VolumeMonotone(bars[1..], t1, t2);
    }
  }

  /** Cumulative volume never falls from one horizon to a later one. */
  lemma CumulativeVolumeMonotone(start: int, study: seq<Bar>, m1: int, m2: int)
    requires m1 <= m2 && AllTradable(study)
    ensures 0 <= VolumeUpTo(start, study, m1) <= VolumeUpTo(start, study, m2)
  {
    VolumeMonotone(study, Target(start, m1), Target(start, m2));
  }

  lemma {:induction false} LowestPrice(bars: seq<Bar>) returns (low: real)
    requires AllTradable(bars)
    ensures && low > 0.0
            && forall i :: 0 <= i < |bars| ==> low <= bars[i].low
  {
    low := 1.0;
    for n := 0 to |bars|
      invariant low > 0.0 && forall i :: 0 <= i < n ==> low <= bars[i].low
    {
      low := Min2(low, bars[n].low);
    }
  }

  lemma {:induction false} HighestPrice(bars: seq<Bar>) returns (high: real)
    ensures forall i :: 0 <= i < |bars| ==> bars[i].high <= high
  {
    high := 0.0;
    for n := 0 to |bars|
      invariant forall i :: 0 <= i < n ==> bars[i].high <= high
    {
      high := Max2(high, bars[n].high);
    }
  }

  lemma VwapPositive(study: seq<Bar>)
    requires AllTradable(study)
    ensures VwapProxy(study).Some? ==> VwapProxy(study).value > 0.0
  {
    var low := LowestPrice(study);
    var high := HighestPrice(study);
    VwapInside(study, low, high);
  }

  // ------------------------------------------------------------------ the stored measures

  /** What the measured columns of one event owe each other. */
  ghost predicate MeasuresBounded(p: real, m: Measures)
    requires p != 0.0
  {
    && m.preClose == Some(p) && m.windowLow.Some? && m.windowHigh.Some?
    && var low, high := m.windowLow.value, m.windowHigh.value;
       && (m.vwapProxy.Some? ==> low <= PctChange(p, m.vwapProxy.value) <= high)
       && (forall h :: h in HORIZONS_MINUTES ==>
             && h in m.horizonReturns && h in m.cumulativeVolume && m.cumulativeVolume[h].Some?
             && (m.horizonReturns[h].Some? ==> low <= m.horizonReturns[h].value <= high))
       && (forall h1, h2 :: h1 in HORIZONS_MINUTES && h2 in HORIZONS_MINUTES && h1 <= h2 ==>
             0 <= m.cumulativeVolume[h1].value <= m.cumulativeVolume[h2].value)
  }

  lemma PctChangeOrder(p: real, a: real, b: real)
    requires p > 0.0 && PctChange(p, a) <= PctChange(p, b)
    ensures a <= b
  {
    var x, y := (a - p) / p, (b - p) / p;
    assert x * p == a - p && y * p == b - p;
    assert (y - x) * p >= 0.0;
  }

  lemma LowestBar(p: real, study: seq<Bar>) returns (i: nat)
    requires p > 0.0 && study != []
    ensures i < |study| && PctChange(p, study[i].low) == WindowLow(p, study)
    ensures forall n :: 0 <= n < |study| ==> study[i].low <= study[n].low
  {
    var lows := Map(study, LowReturn(p));
    MapAt(study, LowReturn(p));
    MinOfLeast(lows);
    i :| 0 <= i < |study| && lows[i] == MinOf(lows);
    forall n | 0 <= n < |study| ensures study[i].low <= study[n].low {
      assert lows[n] == PctChange(p, study[n].low);
      PctChangeOrder(p, study[i].low, study[n].low);
    }
  }

  lemma HighestBar(p: real, study: seq<Bar>) returns (i: nat)
    requires p > 0.0 && study != []
    ensures i < |study| && PctChange(p, study[i].high) == WindowHigh(p, study)
    ensures forall n :: 0 <= n < |study| ==> study[n].high <= study[i].high
  {
    var highs := Map(study, HighReturn(p));
    MapAt(study, HighReturn(p));
    MaxOfGreatest(highs);
    i :| 0 <= i < |study| && highs[i] == MaxOf(highs);
    forall n | 0 <= n < |study| ensures study[n].high <= study[i].high {
      assert highs[n] == PctChange(p, study[n].high);
      PctChangeOrder(p, study[n].high, study[i].high);
    }
  }

  lemma VwapInsideReturns(p: real, study: seq<Bar>)
    requires p > 0.0 && study != [] && AllTradable(study) && VwapProxy(study).Some?
    ensures WindowLow(p, study) <= PctChange(p, VwapProxy(study).value) <= WindowHigh(p, study)
  {
    var i := LowestBar(p, study);
    var j := HighestBar(p, study);
    VwapInside(study, study[i].low, study[j].high);
    PctChangeMonotone(p, study[i].low, VwapProxy(study).value);
    PctChangeMonotone(p, VwapProxy(study).value, study[j].high);
  }

  lemma WindowMeasuresBounded(p: real, start: int, study: seq<Bar>, m: Measures)
    requires p > 0.0 && study != [] && Ascending(study) && AllTradable(study)
    requires m == MeasuresOf(p, start, study)
    ensures MeasuresBounded(p, m)
  {
    if VwapProxy(study).Some? {
      VwapInsideReturns(p, study);
    }
    forall h | h in HORIZONS_MINUTES
      ensures m.horizonReturns[h].Some? ==> WindowLow(p, study) <= m.horizonReturns[h].value <= WindowHigh(p, study)
    {
      CheckpointInside(p, start, study, h);
    }
    forall h1, h2 | h1 in HORIZONS_MINUTES && h2 in HORIZONS_MINUTES && h1 <= h2
      ensures 0 <= m.cumulativeVolume[h1].value <= m.cumulativeVolume[h2].value
    {
      CumulativeVolumeMonotone(start, study, h1, h2);
    }
  }

  /** Checkpoint returns and the volume-weighted price of an accepted event lie inside its stored
      window, and its stored volumes never fall from one horizon to a later one. */
  lemma StoredMeasuresBounded(e: EventEvidence)
    requires Accepted(e)
    ensures MeasuresBounded(PreClose(e), Features(e).measures)
  {
    var m := StoredMeasures(e);
    AcceptedTradable(e);
    WindowMeasuresBounded(PreClose(e), e.postmarketStart.value, StudyBars(e), m);
  }
}
