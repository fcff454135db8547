/** What a following-session outcome reads, told in the evidence's own bars: which bar gives each
    price, and every label multiplied out against the reference close. */
module OutcomeAnswers {
  import opened Sequences
  import opened Bars
  import opened Outcomes
  import opened OutcomeLaws
  import opened OutcomePresence

  // ------------------------------------------------------------------ bars by time

  /** The bars of a phase as they were supplied. */
  function Supplied(c: Option<Coverage>): seq<Bar> {
    if c.None? then [] else c.value.bars
  }

  /** The first bar supplied for its time. */
  ghost predicate FirstAt(bars: seq<Bar>, b: Bar) {
    exists i :: FirstPlace(bars, b, i)
  }

  ghost predicate FirstPlace(bars: seq<Bar>, b: Bar, i: int) {
    0 <= i < |bars| && bars[i] == b && forall j :: 0 <= j < i ==> bars[j].ts != b.ts
  }

  lemma {:induction false} AtMeaning(bars: seq<Bar>, t: int)
    ensures At(bars, t).Some? ==> FirstAt(bars, At(bars, t).value)
    ensures forall b :: FirstAt(bars, b) && b.ts == t ==> At(bars, t) == Some(b)
  {
    if bars != [] {
      var rest := bars[1..];
      AtMeaning(rest, t);
      if bars[0].ts == t {
        assert FirstPlace(bars, bars[0], 0);
      } else if At(rest, t).Some? {
        var i :| FirstPlace(rest, At(rest, t).value, i);
        assert FirstPlace(bars, At(rest, t).value, i + 1);
      }
      forall b | FirstAt(bars, b) && b.ts == t ensures At(bars, t) == Some(b) {
        var i :| FirstPlace(bars, b, i);
        if i > 0 {
          assert bars[0].ts != t;
          assert FirstPlace(rest, b, i - 1);
        }
      }
    }
  }

  lemma KeptMeaning(c: Option<Coverage>, b: Bar)
    ensures b in BarsOf(c) <==> FirstAt(Supplied(c), b)
  {
    var bars := Supplied(c);
    if c.Some? {
      DeduplicatedAscending(bars);
      DeduplicatedAt(bars, b.ts);
      AtMeaning(bars, b.ts);
      OnlyOne(Deduplicated(bars), b);
    }
  }

  lemma {:induction false} OnlyOne(bars: seq<Bar>, b: Bar)
    requires Ascending(bars)
    ensures b in bars <==> At(bars, b.ts) == Some(b)
  {
    if bars != [] {
      OnlyOne(bars[1..], b);
      assert bars == [bars[0]] + bars[1..];
    }
  }

  // ------------------------------------------------------------------ prices

  /** The close of the bar of one minute, if there is one. */
  ghost predicate CloseReads(x: Option<real>, bars: seq<Bar>, t: int) {
    && (x.Some? <==> HasTime(bars, t))
    && (x.Some? ==> exists b :: FirstAt(bars, b) && b.ts == t && x.value == b.close)
  }

  ghost predicate OpenReads(x: Option<real>, bars: seq<Bar>, t: int) {
    && (x.Some? <==> HasTime(bars, t))
    && (x.Some? ==> exists b :: FirstAt(bars, b) && b.ts == t && x.value == b.open)
  }

  ghost predicate HighReads(x: Option<real>, bars: seq<Bar>) {
    && (x.Some? <==> bars != [])
    && (x.Some? ==> forall b :: FirstAt(bars, b) ==> b.high <= x.value)
    && (x.Some? ==> exists b :: FirstAt(bars, b) && b.high == x.value)
  }

  ghost predicate LowReads(x: Option<real>, bars: seq<Bar>) {
    && (x.Some? <==> bars != [])
    && (x.Some? ==> forall b :: FirstAt(bars, b) ==> x.value <= b.low)
    && (x.Some? ==> exists b :: FirstAt(bars, b) && b.low == x.value)
  }

  /** The earliest and the latest bar of a phase. */
  ghost predicate Earliest(bars: seq<Bar>, b: Bar) {
    FirstAt(bars, b) && forall c :: c in bars ==> b.ts <= c.ts
  }

  ghost predicate Latest(bars: seq<Bar>, b: Bar) {
    FirstAt(bars, b) && forall c :: c in bars ==> c.ts <= b.ts
  }

  ghost predicate FirstReads(x: Option<real>, ts: Option<int>, bars: seq<Bar>) {
    && (x.Some? <==> bars != []) && (ts.Some? <==> bars != [])
    && (bars != [] ==> exists b :: Earliest(bars, b) && x == Some(b.open) && ts == Some(b.ts))
  }

  ghost predicate LastReads(x: Option<real>, ts: Option<int>, bars: seq<Bar>) {
    && (x.Some? <==> bars != []) && (ts.Some? <==> bars != [])
    && (bars != [] ==> exists b :: Latest(bars, b) && x == Some(b.close) && ts == Some(b.ts))
  }

  lemma ExactReads(c: Option<Coverage>, t: int, found: Option<Bar>)
    requires found == Exact(c, t)
    ensures CloseReads(CloseAt(found), Supplied(c), t) && OpenReads(OpenAt(found), Supplied(c), t)
    ensures TimeAt(found) == if HasTime(Supplied(c), t) then Some(t) else None
  {
    if c.Some? {
      ExactPresent(c.value, t);
      if found.Some? {
        assert found.value in BarsOf(c);
        KeptMeaning(c, found.value);
      }
    }
  }

  lemma ExtremesRead(c: Option<Coverage>)
    ensures HighReads(Highest(BarsOf(c)), Supplied(c)) && LowReads(Lowest(BarsOf(c)), Supplied(c))
  {
    var bars := BarsOf(c);
    if c.Some? {
      BarsPresent(c.value);
    }
    forall b ensures b in bars <==> FirstAt(Supplied(c), b) {
      KeptMeaning(c, b);
    }
    if bars != [] {
      var highs, lows := Map(bars, HighOf()), Map(bars, LowOf());
      MapAt(bars, HighOf());
      MapAt(bars, LowOf());
      MaxOfGreatest(highs);
      MinOfLeast(lows);
      forall b | b in bars ensures b.high <= MaxOf(highs) && MinOf(lows) <= b.low {
        var i :| 0 <= i < |bars| && bars[i] == b;
        assert highs[i] == b.high && lows[i] == b.low;
      }
      var i :| 0 <= i < |highs| && highs[i] == MaxOf(highs);
      var j :| 0 <= j < |lows| && lows[j] == MinOf(lows);
      assert bars[i] in bars && bars[j] in bars && highs[i] == bars[i].high && lows[j] == bars[j].low;
    }
  }

  lemma BetweenEnds(bars: seq<Bar>, k: Bar)
    requires Ascending(bars) && k in bars
    ensures bars[0].ts <= k.ts <= bars[|bars| - 1].ts
  {
    var i :| 0 <= i < |bars| && bars[i] == k;
  }

  lemma EndBars(c: Coverage, bars: seq<Bar>)
    requires bars == BarsOf(Some(c)) && bars != []
    ensures Earliest(c.bars, bars[0]) && Latest(c.bars, bars[|bars| - 1])
  {
    KeptMeaning(Some(c), bars[0]);
    KeptMeaning(Some(c), bars[|bars| - 1]);
    forall b | b in c.bars ensures bars[0].ts <= b.ts <= bars[|bars| - 1].ts {
      EndTimes(c, bars, b);
    }
  }

  lemma EndTimes(c: Coverage, bars: seq<Bar>, b: Bar)
    requires bars == BarsOf(Some(c)) && bars != [] && b in c.bars
    ensures bars[0].ts <= b.ts <= bars[|bars| - 1].ts
  {
    DeduplicatedAt(c.bars, b.ts);
    KeptAscending(c);
    BetweenEnds(bars, At(bars, b.ts).value);
  }

  lemma KeptAscending(c: Coverage)
    ensures Ascending(BarsOf(Some(c)))
  {
    DeduplicatedAscending(c.bars);
  }

  lemma EndsRead(c: Option<Coverage>)
    ensures FirstReads(OpenAt(FirstBar(BarsOf(c))), TimeAt(FirstBar(BarsOf(c))), Supplied(c))
    ensures LastReads(CloseAt(LastBar(BarsOf(c))), TimeAt(LastBar(BarsOf(c))), Supplied(c))
  {
    if c.Some? {
      BarsPresent(c.value);
      if BarsOf(c) != [] {
        EndBars(c.value, BarsOf(c));
      }
    }
  }

  // ------------------------------------------------------------------ labels

  /** A label is present with its reference and its price, and multiplies out against them. */
  ghost predicate LabelReads(x: Option<real>, reference: Option<real>, price: Option<real>) {
    && (x.Some? <==> reference.Some? && price.Some?)
    && (x.Some? ==> x.value * reference.value == 100.0 * (price.value - reference.value))
  }

  lemma ReturnReads(reference: Option<real>, price: Option<real>)
    requires reference != Some(0.0)
    ensures LabelReads(Return(reference, price), reference, price)
  {
    if reference.Some? && price.Some? {
      var (r, q) := (reference.value, price.value);
      var share := (q - r) / r;
      assert share * r == q - r;
    }
  }

  ghost predicate LabelsRead(labels: Prices, reference: Option<real>, prices: Prices) {
    && LabelReads(labels.first, reference, prices.first) && LabelReads(labels.high, reference, prices.high)
    && LabelReads(labels.low, reference, prices.low) && LabelReads(labels.last, reference, prices.last)
  }

  /** A horizon's label is read from the close of the minute that ends then. */
  ghost predicate HorizonReads(x: Option<real>, reference: Option<real>, bars: seq<Bar>, t: int) {
    exists price :: CloseReads(price, bars, t) && LabelReads(x, reference, price)
  }

  function StartOf(c: Option<Coverage>): int {
    if c.None? then 0 else c.value.start
  }

  /** The last minute of a phase. */
  function LastMinute(c: Option<Coverage>): int {
    if c.None? then 0 else c.value.end - 60
  }

  ghost predicate PricesRead(v: Values, e: Evidence) {
    var (regular, premarket, following) := (Supplied(e.regular), Supplied(e.premarket), Supplied(e.following));
    && CloseReads(v.reference, regular, LastMinute(e.regular))
    && v.referenceTs == (if HasTime(regular, LastMinute(e.regular)) then Some(LastMinute(e.regular)) else None)
    && FirstReads(v.premarket.first, v.premarketFirstTs, premarket)
    && HighReads(v.premarket.high, premarket) && LowReads(v.premarket.low, premarket)
    && LastReads(v.premarket.last, v.premarketLastTs, premarket)
    && OpenReads(v.regular.first, following, StartOf(e.following))
    && HighReads(v.regular.high, following) && LowReads(v.regular.low, following)
    && CloseReads(v.regular.last, following, LastMinute(e.following))
  }

  ghost predicate HorizonsRead(horizons: map<int, Option<real>>, reference: Option<real>, bars: seq<Bar>, open: int) {
    && horizons.Keys == {5, 30, 60}
    && HorizonReads(horizons[5], reference, bars, open + 240)
    && HorizonReads(horizons[30], reference, bars, open + 1740)
    && HorizonReads(horizons[60], reference, bars, open + 3540)
  }

  ghost predicate AllLabelsRead(v: Values, e: Evidence) {
    && LabelsRead(v.premarketReturns, v.reference, v.premarket)
    && LabelsRead(v.regularReturns, v.reference, v.regular)
    && HorizonsRead(v.horizons, v.reference, Supplied(e.following), StartOf(e.following))
  }

  lemma NoBars(t: int)
    ensures CloseReads(None, [], t) && OpenReads(None, [], t)
  {
  }

  lemma ValuesPriced(e: Evidence)
    requires Computable(e)
    ensures PricesRead(ValuesOf(e), e)
  {
    ExactReads(e.regular, LastMinute(e.regular), ClosingBar(e.regular));
    ExactReads(e.following, LastMinute(e.following), ClosingBar(e.following));
    ExactReads(e.following, StartOf(e.following), OpeningBar(e.following));
    ExtremesRead(e.premarket);
    ExtremesRead(e.following);
    EndsRead(e.premarket);
  }

  lemma HorizonPriced(e: Evidence, minute: int, t: int)
    requires Computable(e) && t == StartOf(e.following) + (minute - 1) * 60
    ensures HorizonReads(HorizonReturn(e, minute), Reference(e), Supplied(e.following), t)
  {
    var price := CloseAt(HorizonBar(e.following, minute));
    if e.following.Some? {
      ExactReads(e.following, t, HorizonBar(e.following, minute));
    } else {
      NoBars(t);
    }
    ReturnReads(Reference(e), price);
    assert CloseReads(price, Supplied(e.following), t) && LabelReads(HorizonReturn(e, minute), Reference(e), price);
  }

  lemma LabelsPriced(reference: Option<real>, p: Prices)
    requires reference != Some(0.0)
    ensures LabelsRead(Returns(reference, p), reference, p)
  {
    ReturnReads(reference, p.first);
    ReturnReads(reference, p.high);
    ReturnReads(reference, p.low);
    ReturnReads(reference, p.last);
  }

  lemma HorizonsPriced(e: Evidence, horizons: map<int, Option<real>>)
    requires Computable(e)
    requires horizons == map[5 := HorizonReturn(e, 5), 30 := HorizonReturn(e, 30), 60 := HorizonReturn(e, 60)]
    ensures HorizonsRead(horizons, Reference(e), Supplied(e.following), StartOf(e.following))
  {
    HorizonPriced(e, 5, StartOf(e.following) + 240);
    HorizonPriced(e, 30, StartOf(e.following) + 1740);
    HorizonPriced(e, 60, StartOf(e.following) + 3540);
  }

  lemma LabelParts(e: Evidence, v: Values)
    requires Computable(e) && v == ValuesOf(e)
    ensures v.reference == Reference(e) && v.premarket == PremarketPrices(e) && v.regular == RegularPrices(e)
    ensures v.premarketReturns == Returns(v.reference, v.premarket)
    ensures v.regularReturns == Returns(v.reference, v.regular)
    ensures v.horizons == map[5 := HorizonReturn(e, 5), 30 := HorizonReturn(e, 30), 60 := HorizonReturn(e, 60)]
  {
  }

  lemma AllLabelsPriced(e: Evidence, v: Values)
    requires Computable(e) && v == ValuesOf(e)
    ensures AllLabelsRead(v, e)
  {
    LabelParts(e, v);
    LabelsPriced(v.reference, v.premarket);
    LabelsPriced(v.reference, v.regular);
    HorizonsPriced(e, v.horizons);
  }

  /** Every stored price is that of a supplied bar, and every stored label multiplies out. */
  lemma OutcomeInPrices(e: Evidence, now: int) returns (v: Values)
    requires Computable(e)
    ensures v == OutcomeAt(e, now).values && PricesRead(v, e) && AllLabelsRead(v, e)
  {
    v := ValuesOf(e);
    ValuesPriced(e);
    AllLabelsPriced(e, v);
  }

  // ------------------------------------------------------------------ complete outcomes

  /** A label that is there, and is the return of `price` on `reference`. */
  predicate IsLabel(x: Option<real>, reference: real, price: real) {
    x.Some? && x.value * reference == 100.0 * (price - reference)
  }

  /** The bars a complete outcome is read from. */
  datatype Readings = Readings(
    reference: Bar, opening: Bar, closing: Bar, five: Bar, thirty: Bar, sixty: Bar, first: Bar, last: Bar)

  /** The bar of one minute: clean phases have no other one. */
  predicate IsBarAt(bars: seq<Bar>, t: int, b: Bar) {
    b in bars && b.ts == t
  }

  ghost predicate ReadingsOf(r: Readings, e: Evidence)
    requires e.regular.Some? && e.premarket.Some? && e.following.Some?
  {
    var (regular, premarket, following) := (e.regular.value, e.premarket.value, e.following.value);
    && IsBarAt(regular.bars, regular.end - 60, r.reference)
    && IsBarAt(following.bars, following.start, r.opening)
    && IsBarAt(following.bars, following.end - 60, r.closing)
    && IsBarAt(following.bars, following.start + 240, r.five)
    && IsBarAt(following.bars, following.start + 1740, r.thirty)
    && IsBarAt(following.bars, following.start + 3540, r.sixty)
    && Earliest(premarket.bars, r.first) && Latest(premarket.bars, r.last)
  }

  /** The labels of a complete outcome, from its readings and the extremes of its sessions. */
  predicate LabelsOf(v: Values, r: Readings) {
    var reference := r.reference.close;
    && v.reference == Some(reference)
    && IsLabel(v.regularReturns.first, reference, r.opening.open)
    && IsLabel(v.regularReturns.last, reference, r.closing.close)
    && 5 in v.horizons && IsLabel(v.horizons[5], reference, r.five.close)
    && 30 in v.horizons && IsLabel(v.horizons[30], reference, r.thirty.close)
    && 60 in v.horizons && IsLabel(v.horizons[60], reference, r.sixty.close)
    && IsLabel(v.premarketReturns.first, reference, r.first.open)
    && IsLabel(v.premarketReturns.last, reference, r.last.close)
  }

  /** A high and a low of a phase, and their labels. */
  ghost predicate ExtremeLabels(labels: Prices, prices: Prices, reference: real, bars: seq<Bar>) {
    && prices.high.Some? && prices.low.Some?
    && (forall b :: b in bars ==> b.high <= prices.high.value && prices.low.value <= b.low)
    && (exists b :: b in bars && b.high == prices.high.value)
    && (exists b :: b in bars && b.low == prices.low.value)
    && IsLabel(labels.high, reference, prices.high.value) && IsLabel(labels.low, reference, prices.low.value)
  }

  lemma CleanFirst(c: Coverage, b: Bar)
    requires DistinctTimes(c.bars)
    ensures FirstAt(c.bars, b) <==> b in c.bars
  {
    if b in c.bars {
      var i :| 0 <= i < |c.bars| && c.bars[i] == b;
      assert FirstPlace(c.bars, b, i);
    }
  }

  lemma ReadClose(x: Option<real>, bars: seq<Bar>, t: int) returns (b: Bar)
    requires CloseReads(x, bars, t) && HasTime(bars, t)
    ensures IsBarAt(bars, t, b) && x == Some(b.close)
  {
    b :| FirstAt(bars, b) && b.ts == t && x.value == b.close;
  }

  lemma ReadOpen(x: Option<real>, bars: seq<Bar>, t: int) returns (b: Bar)
    requires OpenReads(x, bars, t) && HasTime(bars, t)
    ensures IsBarAt(bars, t, b) && x == Some(b.open)
  {
    b :| FirstAt(bars, b) && b.ts == t && x.value == b.open;
  }

  lemma ReadHorizon(x: Option<real>, reference: Option<real>, bars: seq<Bar>, t: int) returns (b: Bar)
    requires HorizonReads(x, reference, bars, t) && HasTime(bars, t) && reference.Some?
    ensures IsBarAt(bars, t, b) && IsLabel(x, reference.value, b.close)
  {
    var price :| CloseReads(price, bars, t) && LabelReads(x, reference, price);
    b := ReadClose(price, bars, t);
  }

  lemma ExtremesLabelled(labels: Prices, prices: Prices, reference: Option<real>, c: Coverage)
    requires DistinctTimes(c.bars) && c.bars != [] && reference.Some? && LabelsRead(labels, reference, prices)
    requires HighReads(prices.high, c.bars) && LowReads(prices.low, c.bars)
    ensures ExtremeLabels(labels, prices, reference.value, c.bars)
  {
    forall b ensures FirstAt(c.bars, b) <==> b in c.bars {
      CleanFirst(c, b);
    }
  }

  lemma ClosingLabel(x: Option<real>, stored: Option<real>, reference: Option<real>, bars: seq<Bar>, t: int)
    returns (b: Bar)
    requires CloseReads(x, bars, t) && HasTime(bars, t) && reference.Some? && LabelReads(stored, reference, x)
    ensures IsBarAt(bars, t, b) && IsLabel(stored, reference.value, b.close)
  {
    b := ReadClose(x, bars, t);
  }

  lemma OpeningLabel(x: Option<real>, stored: Option<real>, reference: Option<real>, bars: seq<Bar>, t: int)
    returns (b: Bar)
    requires OpenReads(x, bars, t) && HasTime(bars, t) && reference.Some? && LabelReads(stored, reference, x)
    ensures IsBarAt(bars, t, b) && IsLabel(stored, reference.value, b.open)
  {
    b := ReadOpen(x, bars, t);
  }

  lemma FirstLabel(x: Option<real>, ts: Option<int>, stored: Option<real>, reference: Option<real>, bars: seq<Bar>)
    returns (b: Bar)
    requires FirstReads(x, ts, bars) && bars != [] && reference.Some? && LabelReads(stored, reference, x)
    ensures Earliest(bars, b) && IsLabel(stored, reference.value, b.open)
  {
    b :| Earliest(bars, b) && x == Some(b.open) && ts == Some(b.ts);
  }

  lemma LastLabel(x: Option<real>, ts: Option<int>, stored: Option<real>, reference: Option<real>, bars: seq<Bar>)
    returns (b: Bar)
    requires LastReads(x, ts, bars) && bars != [] && reference.Some? && LabelReads(stored, reference, x)
    ensures Latest(bars, b) && IsLabel(stored, reference.value, b.close)
  {
    b :| Latest(bars, b) && x == Some(b.close) && ts == Some(b.ts);
  }

  lemma HorizonReadings(v: Values, e: Evidence) returns (five: Bar, thirty: Bar, sixty: Bar)
    requires Qualifies(e) && v.reference.Some?
    requires HorizonsRead(v.horizons, v.reference, e.following.value.bars, e.following.value.start)
    ensures IsBarAt(e.following.value.bars, e.following.value.start + 240, five)
    ensures IsBarAt(e.following.value.bars, e.following.value.start + 1740, thirty)
    ensures IsBarAt(e.following.value.bars, e.following.value.start + 3540, sixty)
    ensures 5 in v.horizons && IsLabel(v.horizons[5], v.reference.value, five.close)
    ensures 30 in v.horizons && IsLabel(v.horizons[30], v.reference.value, thirty.close)
    ensures 60 in v.horizons && IsLabel(v.horizons[60], v.reference.value, sixty.close)
  {
    var bars, open := e.following.value.bars, e.following.value.start;
    five := ReadHorizon(v.horizons[5], v.reference, bars, open + 240);
    thirty := ReadHorizon(v.horizons[30], v.reference, bars, open + 1740);
    sixty := ReadHorizon(v.horizons[60], v.reference, bars, open + 3540);
  }

  /** Every label of a complete outcome, from the bar of its minute or the extreme of its session. */
  lemma CompleteLabels(e: Evidence, now: int) returns (v: Values, r: Readings)
    requires Computable(e) && StatusAt(e, now) == CompleteOutcome
    ensures v == OutcomeAt(e, now).values
    ensures e.regular.Some? && e.premarket.Some? && e.following.Some? && ReadingsOf(r, e) && LabelsOf(v, r)
    ensures ExtremeLabels(v.regularReturns, v.regular, r.reference.close, e.following.value.bars)
    ensures ExtremeLabels(v.premarketReturns, v.premarket, r.reference.close, e.premarket.value.bars)
  {
    v := OutcomeInPrices(e, now);
    CompleteExactly(e);
    r := CompleteReadings(e, v);
    ExtremesLabelled(v.regularReturns, v.regular, v.reference, e.following.value);
    ExtremesLabelled(v.premarketReturns, v.premarket, v.reference, e.premarket.value);
  }

  lemma QualifiedTimes(e: Evidence)
    requires Qualifies(e)
    ensures HasTime(e.regular.value.bars, e.regular.value.end - 60) && e.premarket.value.bars != []
    ensures HasTime(e.following.value.bars, e.following.value.start)
    ensures HasTime(e.following.value.bars, e.following.value.end - 60)
  {
  }

  lemma SessionReadings(v: Values, regular: Coverage, following: Coverage)
    returns (reference: Bar, opening: Bar, closing: Bar)
    requires CloseReads(v.reference, regular.bars, regular.end - 60) && HasTime(regular.bars, regular.end - 60)
    requires OpenReads(v.regular.first, following.bars, following.start) && HasTime(following.bars, following.start)
    requires CloseReads(v.regular.last, following.bars, following.end - 60)
    requires HasTime(following.bars, following.end - 60) && LabelsRead(v.regularReturns, v.reference, v.regular)
    ensures IsBarAt(regular.bars, regular.end - 60, reference) && v.reference == Some(reference.close)
    ensures IsBarAt(following.bars, following.start, opening)
    ensures IsLabel(v.regularReturns.first, reference.close, opening.open)
    ensures IsBarAt(following.bars, following.end - 60, closing)
    ensures IsLabel(v.regularReturns.last, reference.close, closing.close)
  {
    reference := ReadClose(v.reference, regular.bars, regular.end - 60);
    opening := OpeningLabel(v.regular.first, v.regularReturns.first, v.reference, following.bars, following.start);
    closing := ClosingLabel(v.regular.last, v.regularReturns.last, v.reference, following.bars, following.end - 60);
  }

  lemma PremarketReadings(v: Values, bars: seq<Bar>) returns (first: Bar, last: Bar)
    requires FirstReads(v.premarket.first, v.premarketFirstTs, bars) && v.reference.Some? && bars != []
    requires LastReads(v.premarket.last, v.premarketLastTs, bars)
    requires LabelsRead(v.premarketReturns, v.reference, v.premarket)
    ensures Earliest(bars, first) && IsLabel(v.premarketReturns.first, v.reference.value, first.open)
    ensures Latest(bars, last) && IsLabel(v.premarketReturns.last, v.reference.value, last.close)
  {
    var (prices, labels) := (v.premarket, v.premarketReturns);
    first := FirstLabel(prices.first, v.premarketFirstTs, labels.first, v.reference, bars);
    last := LastLabel(prices.last, v.premarketLastTs, labels.last, v.reference, bars);
  }

  lemma SessionRead(e: Evidence, v: Values)
    requires Qualifies(e) && PricesRead(v, e)
    ensures CloseReads(v.reference, e.regular.value.bars, e.regular.value.end - 60)
    ensures OpenReads(v.regular.first, e.following.value.bars, e.following.value.start)
    ensures CloseReads(v.regular.last, e.following.value.bars, e.following.value.end - 60)
  {
  }

  lemma PremarketRead(e: Evidence, v: Values)
    requires Qualifies(e) && PricesRead(v, e)
    ensures FirstReads(v.premarket.first, v.premarketFirstTs, e.premarket.value.bars)
    ensures LastReads(v.premarket.last, v.premarketLastTs, e.premarket.value.bars)
  {
  }

  lemma CompleteReadings(e: Evidence, v: Values) returns (r: Readings)
    requires Qualifies(e) && PricesRead(v, e) && AllLabelsRead(v, e)
    ensures ReadingsOf(r, e) && LabelsOf(v, r)
  {
    QualifiedTimes(e);
    SessionRead(e, v);
    PremarketRead(e, v);
    var reference, opening, closing := SessionReadings(v, e.regular.value, e.following.value);
    var five, thirty, sixty := HorizonReadings(v, e);
    var first, last := PremarketReadings(v, e.premarket.value.bars);
    r := Readings(reference, opening, closing, five, thirty, sixty, first, last);
  }

  // ------------------------------------------------------------------ status and tallies

  /** Still pending: less than ten minutes after the expected close, and the following session
      is absent, not over, or not yet covered. */
  lemma PendingExactly(e: Evidence, now: int)
    requires Computable(e)
    ensures StatusAt(e, now) == NotYetAvailable <==>
            && now < e.followingClose + 600
            && (e.following.None? || now < e.following.value.end
                || e.following.value.observed < e.following.value.expected)
  {
  }

  /** A regular phase is well covered from ninety-five observed minutes in a hundred on. */
  lemma WellCoveredExactly(c: Coverage)
    ensures WellCovered(c) <==> 100 * c.observed >= 95 * c.expected
  {
    assert 100.0 * (0.95 * c.expected as real) == (95 * c.expected) as real;
    assert 100.0 * c.observed as real == (100 * c.observed) as real;
  }

  /** Observed and expected minutes as covered, and their share, never above one; a phase that
      is absent counts its usual minutes as missed. */
  predicate TallyReads(t: Outcomes.Tally, c: Option<Coverage>, usual: int) {
    if c.None? then t.observed == 0 && t.expected == usual && t.ratio == 0.0
    else
      var (observed, expected) := (c.value.observed, c.value.expected);
      && t.observed == observed && t.expected == expected
      && t.ratio * expected as real == (if observed < expected then observed else expected) as real
  }

  lemma TallyCounted(c: Option<Coverage>, usual: int)
    requires c.Some? ==> c.value.expected > 0
    ensures TallyReads(TallyOf(c, usual), c, usual)
  {
    if c.Some? {
      var x, n := c.value.observed as real / c.value.expected as real, c.value.expected as real;
      assert x * n == c.value.observed as real;
      ScaleOrder(x, 1.0, n);
    }
  }

  /** The coverage columns of an outcome. */
  lemma TalliesCounted(e: Evidence, now: int)
    requires Computable(e)
    ensures TallyReads(OutcomeAt(e, now).regular, e.regular, 390)
    ensures TallyReads(OutcomeAt(e, now).premarket, e.premarket, 150)
    ensures TallyReads(OutcomeAt(e, now).following, e.following, 390)
  {
    TallyCounted(e.regular, 390);
    TallyCounted(e.premarket, 150);
    TallyCounted(e.following, 390);
  }
}
