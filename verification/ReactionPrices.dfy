/** What the stored reaction says, told in prices: every percentage is multiplied out against
    the pre-close, and no function of the engine is named in the answer. */
module ReactionPrices {
  import opened Sequences
  import opened Bars
  import opened Reactions
  import opened ReactionLaws
  import opened ReactionEnvelope

  // ------------------------------------------------------------------ percentages

  /** `x` percent of `base` is what `price` lies above it. */
  ghost predicate IsReturn(x: real, base: real, price: real) {
    x * base == 100.0 * (price - base)
  }

  lemma ReturnOfPrice(p: real, price: real)
    requires p > 0.0
    ensures IsReturn(PctChange(p, price), p, price)
  {
    var share := (price - p) / p;
    assert share * p == price - p;
  }

  lemma ReturnOrder(p: real, x: real, y: real)
    requires p > 0.0
    ensures x >= y <==> x * p >= y * p
  {
    assert x * p - y * p == (x - y) * p;
    if x < y {
      assert (x - y) * p < 0.0;
    }
  }

  /** A move as seen from the side of the signal. */
  function Seen(up: bool, move: real): real {
    if up then move else -move
  }

  lemma DirectedReturn(p: real, d: Direction, price: real)
    requires p > 0.0
    ensures Directed(d, PctChange(p, price)) * p == 100.0 * Seen(d.Up?, price - p)
  {
    ReturnOfPrice(p, price);
  }

  // ------------------------------------------------------------------ the trigger

  /** The close lies at least two percent away from the pre-close. */
  predicate Moved(p: real, b: Bar) {
    100.0 * (b.close - p) >= 2.0 * p || 100.0 * (p - b.close) >= 2.0 * p
  }

  ghost predicate FirstMove(p: real, study: seq<Bar>, k: nat) {
    k < |study| && Moved(p, study[k]) && forall j :: 0 <= j < k ==> !Moved(p, study[j])
  }

  ghost predicate NoMove(p: real, study: seq<Bar>) {
    forall j :: 0 <= j < |study| ==> !Moved(p, study[j])
  }

  lemma MovedMeaning(p: real, b: Bar)
    requires p > 0.0
    ensures Moved(p, b) <==> Abs(PctChange(p, b.close)) >= REACTION_THRESHOLD_PCT
  {
    ReturnOfPrice(p, b.close);
    ThresholdMeaning(p, PctChange(p, b.close), b.close);
  }

  lemma ThresholdMeaning(p: real, x: real, price: real)
    requires p > 0.0 && IsReturn(x, p, price)
    ensures x >= 2.0 <==> 100.0 * (price - p) >= 2.0 * p
    ensures x <= -2.0 <==> 100.0 * (p - price) >= 2.0 * p
  {
    ReturnOrder(p, x, 2.0);
    var floor := -2.0;
    ReturnOrder(p, floor, x);
    assert floor * p == -(2.0 * p);
  }

  lemma ClosesMoved(p: real, study: seq<Bar>) returns (closes: seq<real>)
    requires p > 0.0
    ensures closes == Map(study, CloseReturn(p))
    ensures forall j :: 0 <= j < |study| ==> (Moved(p, study[j]) <==> Abs(closes[j]) >= REACTION_THRESHOLD_PCT)
  {
    closes := Map(study, CloseReturn(p));
    MapAt(study, CloseReturn(p));
    forall j | 0 <= j < |study| ensures Moved(p, study[j]) <==> Abs(closes[j]) >= REACTION_THRESHOLD_PCT {
      assert closes[j] == CloseReturn(p)(study[j]);
      MovedMeaning(p, study[j]);
    }
  }

  /** What it means for `k` to be where the first move is, or the end when there is none. */
  ghost predicate TriggersAt(p: real, study: seq<Bar>, k: nat) {
    if k < |study| then FirstMove(p, study, k) else k == |study| && NoMove(p, study)
  }

  lemma TriggerIsFirstMove(p: real, study: seq<Bar>, k: nat)
    requires p > 0.0 && k == TriggerIndex(Map(study, CloseReturn(p)))
    ensures TriggersAt(p, study, k)
  {
    var closes := ClosesMoved(p, study);
    var first := TriggerIndex(closes);
    FirstAtThreshold(p, study, closes, first);
  }

  lemma FirstAtThreshold(p: real, study: seq<Bar>, closes: seq<real>, k: nat)
    requires |closes| == |study| && k <= |closes|
    requires k < |closes| ==> Abs(closes[k]) >= REACTION_THRESHOLD_PCT
    requires forall j :: 0 <= j < k ==> Abs(closes[j]) < REACTION_THRESHOLD_PCT
    requires forall j :: 0 <= j < |study| ==> (Moved(p, study[j]) <==> Abs(closes[j]) >= REACTION_THRESHOLD_PCT)
    ensures TriggersAt(p, study, k)
  {
  }

  // ------------------------------------------------------------------ excursions

  /** The prices a confirmed signal runs through: its own close, then every high and low. */
  ghost predicate PathPrice(study: seq<Bar>, k: nat, price: real)
    requires k < |study|
  {
    price == study[k].close || exists j :: k < j < |study| && (price == study[j].high || price == study[j].low)
  }

  /** The best move of the path as seen from the signal: never below zero, and reached. */
  ghost predicate BestMove(x: real, p: real, up: bool, study: seq<Bar>, k: nat)
    requires k < |study|
  {
    && x >= 0.0
    && (forall price :: PathPrice(study, k, price) ==> x * p >= 100.0 * Seen(up, price - p))
    && (exists price :: PathPrice(study, k, price) && x * p == 100.0 * Seen(up, price - p))
  }

  /** The worst move of the path as seen from the signal: never above zero, where it is clipped. */
  ghost predicate WorstMove(x: real, p: real, up: bool, study: seq<Bar>, k: nat)
    requires k < |study|
  {
    && x <= 0.0
    && (forall price :: PathPrice(study, k, price) ==> x * p <= 100.0 * Seen(up, price - p))
    && (x == 0.0 || exists price :: PathPrice(study, k, price) && x * p == 100.0 * Seen(up, price - p))
  }

  /** The best and the worst of a path, in whatever unit `move` measures a price. */
  ghost predicate Greatest(x: real, move: real -> real, study: seq<Bar>, k: nat)
    requires k < |study|
  {
    && (forall price :: PathPrice(study, k, price) ==> x >= move(price))
    && (exists price :: PathPrice(study, k, price) && x == move(price))
  }

  ghost predicate Least(x: real, move: real -> real, study: seq<Bar>, k: nat)
    requires k < |study|
  {
    && (forall price :: PathPrice(study, k, price) ==> x <= move(price))
    && (exists price :: PathPrice(study, k, price) && x == move(price))
  }

  lemma PathGreatest(move: real -> real, high: Bar -> real, study: seq<Bar>, k: nat, x: real)
    requires k + 1 < |study| && forall b :: high(b) == Max2(move(b.high), move(b.low))
    requires x == Max2(move(study[k].close), MaxOf(Map(study[k + 1..], high)))
    ensures Greatest(x, move, study, k)
  {
    var tail := study[k + 1..];
    var highs := Map(tail, high);
    MapAt(tail, high);
    MaxOfGreatest(highs);
    forall j | k < j < |study| ensures x >= move(study[j].high) && x >= move(study[j].low) {
      assert tail[j - k - 1] == study[j] && highs[j - k - 1] == high(study[j]);
    }
    var i :| 0 <= i < |highs| && highs[i] == MaxOf(highs);
    var b := study[k + 1 + i];
    assert tail[i] == b && highs[i] == high(b);
    assert PathPrice(study, k, study[k].close) && PathPrice(study, k, b.high) && PathPrice(study, k, b.low);
  }

  lemma PathLeast(move: real -> real, low: Bar -> real, study: seq<Bar>, k: nat, x: real)
    requires k + 1 < |study| && forall b :: low(b) == Min2(move(b.high), move(b.low))
    requires x == Min2(move(study[k].close), MinOf(Map(study[k + 1..], low)))
    ensures Least(x, move, study, k)
  {
    var tail := study[k + 1..];
    var lows := Map(tail, low);
    MapAt(tail, low);
    MinOfLeast(lows);
    forall j | k < j < |study| ensures x <= move(study[j].high) && x <= move(study[j].low) {
      assert tail[j - k - 1] == study[j] && lows[j - k - 1] == low(study[j]);
    }
    var i :| 0 <= i < |lows| && lows[i] == MinOf(lows);
    var b := study[k + 1 + i];
    assert tail[i] == b && lows[i] == low(b);
    assert PathPrice(study, k, study[k].close) && PathPrice(study, k, b.high) && PathPrice(study, k, b.low);
  }

  function MoveTowards(p: real, d: Direction): real -> real
    requires p != 0.0
  {
    (price: real) => Directed(d, PctChange(p, price))
  }

  lemma MoveInPrices(p: real, d: Direction, x: real, price: real)
    requires p > 0.0
    ensures x >= MoveTowards(p, d)(price) <==> x * p >= 100.0 * Seen(d.Up?, price - p)
    ensures x <= MoveTowards(p, d)(price) <==> x * p <= 100.0 * Seen(d.Up?, price - p)
  {
    var y := Directed(d, PctChange(p, price));
    DirectedReturn(p, d, price);
    ReturnOrder(p, x, y);
    ReturnOrder(p, y, x);
  }

  lemma FavorableIsBest(p: real, d: Direction, study: seq<Bar>, k: nat, x: real)
    requires p > 0.0 && k + 1 < |study| && x >= 0.0 && Greatest(x, MoveTowards(p, d), study, k)
    ensures BestMove(x, p, d.Up?, study, k)
  {
    forall price ensures x >= MoveTowards(p, d)(price) <==> x * p >= 100.0 * Seen(d.Up?, price - p) {
      MoveInPrices(p, d, x, price);
    }
    var price :| PathPrice(study, k, price) && x == MoveTowards(p, d)(price);
    MoveInPrices(p, d, x, price);
  }

  lemma AdverseReached(p: real, d: Direction, study: seq<Bar>, k: nat, x: real) returns (price: real)
    requires p > 0.0 && k + 1 < |study| && Least(x, MoveTowards(p, d), study, k)
    ensures PathPrice(study, k, price) && x * p == 100.0 * Seen(d.Up?, price - p)
  {
    price :| PathPrice(study, k, price) && x == MoveTowards(p, d)(price);
    MoveInPrices(p, d, x, price);
  }

  lemma AdverseBelow(p: real, d: Direction, study: seq<Bar>, k: nat, x: real, least: real)
    requires p > 0.0 && k + 1 < |study| && x <= least && Least(least, MoveTowards(p, d), study, k)
    ensures forall price :: PathPrice(study, k, price) ==> x * p <= 100.0 * Seen(d.Up?, price - p)
  {
    forall price | PathPrice(study, k, price) ensures x * p <= 100.0 * Seen(d.Up?, price - p) {
      MoveInPrices(p, d, x, price);
    }
  }

  lemma WorstWhen(x: real, p: real, up: bool, study: seq<Bar>, k: nat, price: real)
    requires k < |study| && x <= 0.0 && PathPrice(study, k, price)
    requires x == 0.0 || x * p == 100.0 * Seen(up, price - p)
    requires forall q :: PathPrice(study, k, q) ==> x * p <= 100.0 * Seen(up, q - p)
    ensures WorstMove(x, p, up, study, k)
  {
  }

  lemma ZeroOrLeast(x: real, least: real, p: real, seen: real)
    requires (x == 0.0 || x == least) && least * p == seen
    ensures x == 0.0 || x * p == seen
  {
  }

  lemma AdverseIsWorst(p: real, d: Direction, study: seq<Bar>, k: nat, x: real, least: real)
    requires p > 0.0 && k + 1 < |study| && x == Min2(0.0, least) && Least(least, MoveTowards(p, d), study, k)
    ensures WorstMove(x, p, d.Up?, study, k)
  {
    var price := AdverseReached(p, d, study, k, least);
    AdverseBelow(p, d, study, k, x, least);
    ZeroOrLeast(x, least, p, 100.0 * Seen(d.Up?, price - p));
    WorstWhen(x, p, d.Up?, study, k, price);
  }

  // ------------------------------------------------------------------ the share given back

  /** The share of the best move given back by the last close, in percent. */
  ghost predicate GivenBack(share: real, best: real, p: real, up: bool, last: real) {
    share * (best * p) == 100.0 * (best * p - 100.0 * Seen(up, last - p))
  }

  lemma RetracementGivenBack(best: real, terminal: real, p: real, up: bool, last: real)
    requires best > 0.0 && terminal <= best && terminal * p == 100.0 * Seen(up, last - p)
    ensures Retracement(best, terminal).Some?
    ensures GivenBack(Retracement(best, terminal).value, best, p, up, last)
  {
    var share := (best - terminal) / best;
    assert share * best == best - terminal && share >= 0.0;
    assert share * 100.0 * (best * p) == 100.0 * p * (share * best);
    assert p * (best - terminal) == best * p - terminal * p;
  }

  // ------------------------------------------------------------------ the signal and its class

  /** Closes from the trigger on reach two percent on both sides of the pre-close. */
  ghost predicate TwoSided(p: real, study: seq<Bar>, k: nat) {
    exists i, j :: k <= i < |study| && k <= j < |study|
      && 100.0 * (study[i].close - p) >= 2.0 * p && 100.0 * (p - study[j].close) >= 2.0 * p
  }

  /** A signal confirmed by bar `k`, value by value. */
  ghost predicate SignalInPrices(s: Signal, p: real, start: int, study: seq<Bar>, k: nat)
    requires k + 1 < |study|
  {
    var up, known, last := study[k].close > p, study[k].ts + 60, study[|study| - 1].close;
    && s.timestamp == Some(known)
    && s.delay.Some? && 60 * s.delay.value <= known - start < 60 * s.delay.value + 60
    && s.initialReturn.Some? && IsReturn(s.initialReturn.value, p, study[k].close)
    && s.maxFavorable.Some? && BestMove(s.maxFavorable.value, p, up, study, k)
    && s.maxAdverse.Some? && WorstMove(s.maxAdverse.value, p, up, study, k)
    && s.retracement.Some? && GivenBack(s.retracement.value, s.maxFavorable.value, p, up, last)
  }

  /** The class of a confirmed signal: two-sided closes, else more than half of the best move
      given back at the last close, else a delay of fifteen minutes, else a continuation. */
  ghost predicate ClassInPrices(c: Classification, s: Signal, p: real, study: seq<Bar>, k: nat)
    requires k + 1 < |study|
  {
    && s.maxFavorable.Some? && s.delay.Some?
    && c == if TwoSided(p, study, k) then Whipsaw
            else if 200.0 * Seen(study[k].close > p, study[|study| - 1].close - p) < s.maxFavorable.value * p then Fade
            else if s.delay.value >= 15 then Delayed
            else Continuation
  }

  lemma TwoSidedMeaning(p: real, study: seq<Bar>, k: nat)
    requires p > 0.0
    ensures BothSidesFrom(Map(study, CloseReturn(p)), k) <==> TwoSided(p, study, k)
  {
    var closes := Map(study, CloseReturn(p));
    MapAt(study, CloseReturn(p));
    forall i | 0 <= i < |study|
      ensures closes[i] >= 2.0 <==> 100.0 * (study[i].close - p) >= 2.0 * p
      ensures closes[i] <= -2.0 <==> 100.0 * (p - study[i].close) >= 2.0 * p
    {
      assert closes[i] == CloseReturn(p)(study[i]);
      ReturnOfPrice(p, study[i].close);
      ThresholdMeaning(p, closes[i], study[i].close);
    }
    SidesAlike(p, study, closes, k);
  }

  lemma SidesAlike(p: real, study: seq<Bar>, closes: seq<real>, k: nat)
    requires |closes| == |study|
    requires forall i :: 0 <= i < |study| ==> (closes[i] >= 2.0 <==> 100.0 * (study[i].close - p) >= 2.0 * p)
    requires forall i :: 0 <= i < |study| ==> (closes[i] <= -2.0 <==> 100.0 * (p - study[i].close) >= 2.0 * p)
    ensures BothSidesFrom(closes, k) <==> TwoSided(p, study, k)
  {
  }

  /** The path behind a confirmed signal, in prices. */
  ghost predicate PathInPrices(path: Path, p: real, study: seq<Bar>, k: nat)
    requires k + 1 < |study|
  {
    var up := study[k].close > p;
    && path.favorable > 0.0
    && IsReturn(path.initial, p, study[k].close)
    && BestMove(path.favorable, p, up, study, k)
    && WorstMove(path.adverse, p, up, study, k)
    && path.terminal * p == 100.0 * Seen(up, study[|study| - 1].close - p)
  }

  lemma CloseAtEnds(p: real, study: seq<Bar>, k: nat, closes: seq<real>)
    requires p > 0.0 && k < |study| && closes == Map(study, CloseReturn(p))
    ensures closes[k] == PctChange(p, study[k].close)
    ensures closes[|study| - 1] == PctChange(p, study[|study| - 1].close)
    ensures SignalDirection(closes[k]).Up? <==> study[k].close > p
  {
    MapAt(study, CloseReturn(p));
    TriggerSide(p, study, k);
  }

  lemma PathParts(p: real, start: int, study: seq<Bar>, k: nat, d: Direction) returns (path: Path)
    requires Signals(p, start, study, k) && d == SignalDirection(Map(study, CloseReturn(p))[k])
    ensures path == PathOf(p, start, study, k)
    ensures var (closes, after) := (Map(study, CloseReturn(p)), study[k + 1..]);
            && path.initial == closes[k] && path.terminal == Directed(d, closes[|study| - 1])
            && path.favorable == Max2(0.0, Max2(Directed(d, closes[k]), MaxOf(Map(after, DirectionalHigh(p, d)))))
            && path.adverse == Min2(0.0, Min2(Directed(d, closes[k]), MinOf(Map(after, DirectionalLow(p, d)))))
            && path.delay == DelayMinutes(start, study[k].ts + MINUTE)
  {
    path := PathOf(p, start, study, k);
  }

  lemma PathPriced(p: real, d: Direction, study: seq<Bar>, k: nat, path: Path)
    requires p > 0.0 && k + 1 < |study| && path.favorable > 0.0
    requires d.Up? <==> study[k].close > p
    requires path.initial == PctChange(p, study[k].close)
    requires path.terminal == Directed(d, PctChange(p, study[|study| - 1].close))
    requires BestMove(path.favorable, p, d.Up?, study, k) && WorstMove(path.adverse, p, d.Up?, study, k)
    ensures PathInPrices(path, p, study, k)
  {
    ReturnOfPrice(p, study[k].close);
    DirectedReturn(p, d, study[|study| - 1].close);
  }

  lemma ExcursionsPriced(p: real, d: Direction, study: seq<Bar>, k: nat, close: real, best: real, worst: real)
    requires p > 0.0 && k + 1 < |study| && close == PctChange(p, study[k].close) && best > 0.0
    requires best == Max2(0.0, Max2(Directed(d, close), MaxOf(Map(study[k + 1..], DirectionalHigh(p, d)))))
    requires worst == Min2(0.0, Min2(Directed(d, close), MinOf(Map(study[k + 1..], DirectionalLow(p, d)))))
    ensures BestMove(best, p, d.Up?, study, k) && WorstMove(worst, p, d.Up?, study, k)
  {
    var greatest := Max2(Directed(d, close), MaxOf(Map(study[k + 1..], DirectionalHigh(p, d))));
    var least := Min2(Directed(d, close), MinOf(Map(study[k + 1..], DirectionalLow(p, d))));
    PathGreatest(MoveTowards(p, d), DirectionalHigh(p, d), study, k, greatest);
    PathLeast(MoveTowards(p, d), DirectionalLow(p, d), study, k, least);
    FavorableIsBest(p, d, study, k, best);
    AdverseIsWorst(p, d, study, k, worst, least);
  }

  lemma TerminalBelowBest(best: real, terminal: real, p: real, up: bool, last: Bar)
    requires p > 0.0 && Tradable(last) && terminal * p == 100.0 * Seen(up, last.close - p)
    requires best * p >= 100.0 * Seen(up, last.high - p) && best * p >= 100.0 * Seen(up, last.low - p)
    ensures terminal <= best
  {
    assert last.low <= last.close <= last.high;
    assert best * p >= terminal * p;
    ReturnOrder(p, best, terminal);
  }

  lemma BelowHalf(best: real, terminal: real, p: real)
    requires p > 0.0
    ensures terminal < best / 2.0 <==> 2.0 * (terminal * p) < best * p
  {
    var half := best / 2.0;
    ReturnOrder(p, terminal, half);
    assert 2.0 * (half * p) == best * p;
  }

  lemma PathClassPriced(path: Path, p: real, study: seq<Bar>, k: nat, s: Signal)
    requires p > 0.0 && k + 1 < |study| && path.favorable > 0.0
    requires path.terminal * p == 100.0 * Seen(study[k].close > p, study[|study| - 1].close - p)
    requires path.whipsaw <==> TwoSided(p, study, k)
    requires s.maxFavorable == Some(path.favorable) && s.delay == Some(path.delay)
    ensures ClassInPrices(Classify(path), s, p, study, k)
  {
    PathClass(path);
    BelowHalf(path.favorable, path.terminal, p);
  }

  /** The path of a confirmed signal in prices, with the facts the class rests on. */
  lemma ConfirmedPath(p: real, start: int, study: seq<Bar>, k: nat) returns (path: Path)
    requires Signals(p, start, study, k)
    ensures path == PathOf(p, start, study, k) && PathInPrices(path, p, study, k)
    ensures path.whipsaw <==> TwoSided(p, study, k)
    ensures path.delay == DelayMinutes(start, study[k].ts + MINUTE)
  {
    var closes := Map(study, CloseReturn(p));
    var d := SignalDirection(closes[k]);
    path := PathParts(p, start, study, k, d);
    CloseAtEnds(p, study, k, closes);
    FavorablePositive(p, start, study, k, path);
    ExcursionsPriced(p, d, study, k, closes[k], path.favorable, path.adverse);
    PathPriced(p, d, study, k, path);
    WhipsawIsTwoSided(p, start, study, k, path);
  }

  lemma FavorablePositive(p: real, start: int, study: seq<Bar>, k: nat, path: Path)
    requires Signals(p, start, study, k) && path == PathOf(p, start, study, k)
    ensures path.favorable > 0.0
  {
    WindowClass(p, start, study, k);
  }

  lemma WhipsawIsTwoSided(p: real, start: int, study: seq<Bar>, k: nat, path: Path)
    requires Signals(p, start, study, k) && path == PathOf(p, start, study, k)
    ensures path.whipsaw <==> TwoSided(p, study, k)
  {
    WhipsawMeaning(Map(study, CloseReturn(p)), k);
    TwoSidedMeaning(p, study, k);
  }

  lemma DelayPriced(start: int, known: int)
    requires start <= known
    ensures var delay := DelayMinutes(start, known); 60 * delay <= known - start < 60 * delay + 60
  {
  }

  /** Nothing beyond the best move is left at the last close, and the rest was given back. */
  lemma LastGivesBack(best: real, terminal: real, p: real, up: bool, last: Bar) returns (share: real)
    requires p > 0.0 && best > 0.0 && Tradable(last) && terminal * p == 100.0 * Seen(up, last.close - p)
    requires best * p >= 100.0 * Seen(up, last.high - p) && best * p >= 100.0 * Seen(up, last.low - p)
    ensures Retracement(best, terminal) == Some(share) && GivenBack(share, best, p, up, last.close)
  {
    TerminalBelowBest(best, terminal, p, up, last);
    RetracementGivenBack(best, terminal, p, up, last.close);
    share := Retracement(best, terminal).value;
  }

  lemma BestBounds(best: real, p: real, up: bool, study: seq<Bar>, k: nat, last: Bar)
    requires k + 1 < |study| && BestMove(best, p, up, study, k) && last == study[|study| - 1]
    ensures best * p >= 100.0 * Seen(up, last.high - p) && best * p >= 100.0 * Seen(up, last.low - p)
  {
    assert PathPrice(study, k, last.high) && PathPrice(study, k, last.low);
  }

  lemma StoredPath(path: Path, p: real, start: int, study: seq<Bar>, k: nat, s: Signal)
    requires k + 1 < |study| && PathInPrices(path, p, study, k)
    requires s.timestamp == Some(study[k].ts + 60) && s.initialReturn == Some(path.initial)
    requires s.maxFavorable == Some(path.favorable) && s.maxAdverse == Some(path.adverse)
    requires s.delay.Some? && 60 * s.delay.value <= study[k].ts + 60 - start < 60 * s.delay.value + 60
    requires s.retracement.Some?
    requires GivenBack(s.retracement.value, path.favorable, p, study[k].close > p, study[|study| - 1].close)
    ensures SignalInPrices(s, p, start, study, k)
  {
  }

  lemma LastShare(best: real, terminal: real, p: real, up: bool, study: seq<Bar>, k: nat, last: Bar)
    returns (share: real)
    requires p > 0.0 && best > 0.0 && k + 1 < |study| && last == study[|study| - 1] && Tradable(last)
    requires BestMove(best, p, up, study, k) && terminal * p == 100.0 * Seen(up, last.close - p)
    ensures Retracement(best, terminal) == Some(share) && GivenBack(share, best, p, up, last.close)
  {
    BestBounds(best, p, up, study, k, last);
    share := LastGivesBack(best, terminal, p, up, last);
  }

  lemma ShareOf(path: Path, p: real, study: seq<Bar>, k: nat, up: bool, last: Bar) returns (share: real)
    requires p > 0.0 && k + 1 < |study| && last == study[|study| - 1] && Tradable(last)
    requires up == (study[k].close > p) && PathInPrices(path, p, study, k)
    ensures Retracement(path.favorable, path.terminal) == Some(share)
    ensures GivenBack(share, path.favorable, p, up, last.close)
  {
    share := LastShare(path.favorable, path.terminal, p, up, study, k, last);
  }

  lemma PathTerminal(path: Path, p: real, study: seq<Bar>, k: nat)
    requires k + 1 < |study| && PathInPrices(path, p, study, k)
    ensures path.favorable > 0.0
    ensures path.terminal * p == 100.0 * Seen(study[k].close > p, study[|study| - 1].close - p)
  {
  }

  lemma SignalPriced(p: real, start: int, study: seq<Bar>, k: nat, v: Verdict)
    requires Signals(p, start, study, k) && v == VerdictOf(p, start, study)
    requires start <= study[k].ts && Tradable(study[|study| - 1])
    ensures SignalInPrices(v.signal, p, start, study, k) && ClassInPrices(v.classification, v.signal, p, study, k)
  {
    var path := ConfirmedPath(p, start, study, k);
    SignalVerdict(p, start, study, k);
    var share := ShareOf(path, p, study, k, study[k].close > p, study[|study| - 1]);
    DelayPriced(start, study[k].ts + 60);
    StoredPath(path, p, start, study, k, v.signal);
    PathTerminal(path, p, study, k);
    PathClassPriced(path, p, study, k, v.signal);
  }

  // ------------------------------------------------------------------ the window

  /** The latest bar at or before `target` that is less than eleven minutes old. */
  ghost predicate LatestBar(study: seq<Bar>, target: int, b: Bar) {
    b in study && target - 660 < b.ts <= target && forall c :: c in study && c.ts <= target ==> c.ts <= b.ts
  }

  ghost predicate HorizonInPrices(x: Option<real>, p: real, study: seq<Bar>, target: int) {
    && (x.None? <==> forall b :: b in study ==> !(target - 660 < b.ts <= target))
    && (x.Some? ==> exists b :: LatestBar(study, target, b) && IsReturn(x.value, p, b.close))
  }

  lemma CheckpointPriced(p: real, start: int, study: seq<Bar>, h: int)
    requires p > 0.0 && Ascending(study)
    ensures HorizonInPrices(HorizonReturn(p, start, study, h), p, study, start + (h - 1) * 60)
  {
    var target := start + (h - 1) * 60;
    CheckpointIsLatest(study, target);
    var found := Checkpoint(study, target);
    if found.Some? {
      var b := found.value.0;
      ReturnOfPrice(p, b.close);
      assert LatestBar(study, target, b);
    } else {
      forall b | b in study ensures !(target - 660 < b.ts <= target) {
        assert b.ts <= target ==> (target - b.ts) / MINUTE > 10;
      }
    }
  }

  function Volume(b: Bar): int {
    if b.volume.Some? then b.volume.value else 0
  }

  /** Everything traded up to a time. */
  function TradedBy(bars: seq<Bar>, t: int): int {
    if bars == [] then 0 else (if bars[0].ts <= t then Volume(bars[0]) else 0) + TradedBy(bars[1..], t)
  }

  /** Everything traded. */
  function Traded(bars: seq<Bar>): int {
    if bars == [] then 0 else Volume(bars[0]) + Traded(bars[1..])
  }

  /** Three times the money traded, every bar at the mean of its high, low and close. */
  function Turnover(bars: seq<Bar>): real {
    if bars == [] then 0.0
    else (bars[0].high + bars[0].low + bars[0].close) * (Volume(bars[0]) as real) + Turnover(bars[1..])
  }

  lemma {:induction false} VolumeTraded(bars: seq<Bar>, t: int)
    ensures TotalVolume(Filter(bars, UpTo(t))) == TradedBy(bars, t)
  {
    if bars != [] {
      VolumeTraded(bars[1..], t);
    }
  }

  lemma TypicalTurnover(b: Bar, volume: real)
    ensures 3.0 * (TypicalPrice(b) * volume) == (b.high + b.low + b.close) * volume
  {
    var sum := b.high + b.low + b.close;
    assert 3.0 * TypicalPrice(b) == sum;
  }

  lemma {:induction false} WeightedTurnover(bars: seq<Bar>)
    requires AllTradable(bars)
    ensures TotalVolume(Filter(bars, HasVolume)) == Traded(bars) >= 0
    ensures 3.0 * WeightedPrice(Filter(bars, HasVolume)) == Turnover(bars)
  {
    if bars != [] {
      WeightedTurnover(bars[1..]);
      assert Tradable(bars[0]);
      TypicalTurnover(bars[0], VolumeOf(bars[0]) as real);
    }
  }

  /** The volume-weighted price: absent exactly when nothing traded. */
  ghost predicate VwapInPrices(x: Option<real>, study: seq<Bar>) {
    if Traded(study) == 0 then x.None? else x.Some? && 3.0 * (x.value * (Traded(study) as real)) == Turnover(study)
  }

  lemma VwapPriced(study: seq<Bar>)
    requires AllTradable(study)
    ensures VwapInPrices(VwapProxy(study), study)
  {
    WeightedTurnover(study);
    var traded := Filter(study, HasVolume);
    if Traded(study) > 0 {
      var total, weighted := Traded(study) as real, WeightedPrice(traded);
      QuotientTimes(weighted, total);
    }
  }

  lemma QuotientTimes(x: real, total: real)
    requires total > 0.0
    ensures x / total * total == x
  {
  }

  ghost predicate HighestReturn(x: real, p: real, study: seq<Bar>) {
    && (forall b :: b in study ==> x * p >= 100.0 * (b.high - p))
    && (exists b :: b in study && x * p == 100.0 * (b.high - p))
  }

  ghost predicate LowestReturn(x: real, p: real, study: seq<Bar>) {
    && (forall b :: b in study ==> x * p <= 100.0 * (b.low - p))
    && (exists b :: b in study && x * p == 100.0 * (b.low - p))
  }

  lemma HighestPriced(p: real, study: seq<Bar>)
    requires p > 0.0 && study != []
    ensures HighestReturn(MaxOf(Map(study, HighReturn(p))), p, study)
  {
    var i := HighestBar(p, study);
    ReturnOfPrice(p, study[i].high);
  }

  lemma LowestPriced(p: real, study: seq<Bar>)
    requires p > 0.0 && study != []
    ensures LowestReturn(MinOf(Map(study, LowReturn(p))), p, study)
  {
    var i := LowestBar(p, study);
    ReturnOfPrice(p, study[i].low);
  }

  const SIX: set<int> := {1, 5, 15, 30, 60, 105}

  /** Every measured column, value by value. */
  ghost predicate MeasuresInPrices(m: Measures, p: real, start: int, study: seq<Bar>)
    requires study != []
  {
    && m.preClose == Some(p) && m.analyzedThrough == Some(study[|study| - 1].ts)
    && ReturnsInPrices(m.horizonReturns, p, start, study)
    && VolumesInPrices(m.cumulativeVolume, start, study)
    && VwapInPrices(m.vwapProxy, study) && m.volumeAvailable == m.vwapProxy.Some?
    && m.windowHigh.Some? && HighestReturn(m.windowHigh.value, p, study)
    && m.windowLow.Some? && LowestReturn(m.windowLow.value, p, study)
  }

  ghost predicate ReturnsInPrices(returns_: map<int, Option<real>>, p: real, start: int, study: seq<Bar>) {
    && returns_.Keys == SIX
    && forall h :: h in returns_ ==> HorizonInPrices(returns_[h], p, study, start + (h - 1) * 60)
  }

  ghost predicate VolumesInPrices(volumes: map<int, Option<int>>, start: int, study: seq<Bar>) {
    && volumes.Keys == SIX
    && forall h :: h in volumes ==> volumes[h] == Some(TradedBy(study, start + (h - 1) * 60))
  }

  lemma HorizonsAreSix()
    ensures forall h :: h in HORIZONS_MINUTES <==> h in SIX
  {
    forall h | h in SIX ensures h in HORIZONS_MINUTES {
      assert HORIZONS_MINUTES[0] == 1 && HORIZONS_MINUTES[1] == 5 && HORIZONS_MINUTES[2] == 15;
      assert HORIZONS_MINUTES[3] == 30 && HORIZONS_MINUTES[4] == 60 && HORIZONS_MINUTES[5] == 105;
    }
  }

  lemma ReturnsPriced(p: real, start: int, study: seq<Bar>, returns_: map<int, Option<real>>)
    requires p > 0.0 && Ascending(study) && returns_ == HorizonReturns(p, start, study)
    ensures ReturnsInPrices(returns_, p, start, study)
  {
    HorizonsAreSix();
    forall h | h in returns_ ensures HorizonInPrices(returns_[h], p, study, start + (h - 1) * 60) {
      CheckpointPriced(p, start, study, h);
    }
  }

  lemma VolumeAtHorizon(start: int, study: seq<Bar>, h: int)
    ensures VolumeUpTo(start, study, h) == TradedBy(study, start + (h - 1) * 60)
  {
    VolumeTraded(study, start + (h - 1) * 60);
  }

  lemma VolumeColumns(start: int, study: seq<Bar>, volumes: map<int, Option<int>>)
    requires volumes == CumulativeVolumes(start, study)
    ensures volumes.Keys == SIX
    ensures forall h :: h in volumes ==> volumes[h] == Some(VolumeUpTo(start, study, h))
  {
    HorizonsAreSix();
  }

  lemma VolumesAgree(start: int, study: seq<Bar>, volumes: map<int, Option<int>>)
    requires volumes.Keys == SIX && forall h :: h in volumes ==> volumes[h] == Some(VolumeUpTo(start, study, h))
    ensures VolumesInPrices(volumes, start, study)
  {
    forall h | h in volumes ensures volumes[h] == Some(TradedBy(study, start + (h - 1) * 60)) {
      VolumeAtHorizon(start, study, h);
    }
  }

  lemma VolumesPriced(start: int, study: seq<Bar>, volumes: map<int, Option<int>>)
    requires volumes == CumulativeVolumes(start, study)
    ensures VolumesInPrices(volumes, start, study)
  {
    VolumeColumns(start, study, volumes);
    VolumesAgree(start, study, volumes);
  }

  lemma MeasuresAssembled(m: Measures, p: real, start: int, study: seq<Bar>, high: real, low: real)
    requires study != [] && m.preClose == Some(p) && m.analyzedThrough == Some(study[|study| - 1].ts)
    requires ReturnsInPrices(m.horizonReturns, p, start, study) && VolumesInPrices(m.cumulativeVolume, start, study)
    requires VwapInPrices(m.vwapProxy, study) && m.volumeAvailable == m.vwapProxy.Some?
    requires m.windowHigh == Some(high) && HighestReturn(high, p, study)
    requires m.windowLow == Some(low) && LowestReturn(low, p, study)
    ensures MeasuresInPrices(m, p, start, study)
  {
  }

  lemma MeasuresPriced(p: real, start: int, study: seq<Bar>, m: Measures)
    requires p > 0.0 && study != [] && Ascending(study) && AllTradable(study) && m == MeasuresOf(p, start, study)
    ensures MeasuresInPrices(m, p, start, study)
  {
    var high, low := MaxOf(Map(study, HighReturn(p))), MinOf(Map(study, LowReturn(p)));
    assert ReturnsInPrices(m.horizonReturns, p, start, study) by {
      ReturnsPriced(p, start, study, m.horizonReturns);
    }
    assert VolumesInPrices(m.cumulativeVolume, start, study) by {
      VolumesPriced(start, study, m.cumulativeVolume);
    }
    assert VwapInPrices(m.vwapProxy, study) by {
      VwapPriced(study);
    }
    HighestPriced(p, study);
    LowestPriced(p, study);
    MeasuresAssembled(m, p, start, study, high, low);
  }
}
