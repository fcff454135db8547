/** A candle as its ticks fold into it, and the ticks of a minute cut into segments where a
    flush closed the bar. */
module CandleFolds {
  import opened Sequences
  import opened Capture

  type Poll = Option<seq<Quote>>

  // ------------------------------------------------------------------ open-high-low-close

  function Price(): Quote -> real {
    (q: Quote) => PriceOf(q)
  }

  /** Streaming updates are the batch aggregation: first, greatest, least and last price, and
      the difference of the outer volumes. */
  lemma {:induction false} FoldMeaning(ticks: seq<Quote>)
    requires ticks != []
    ensures var (b, prices, n) := (Fold(ticks), Map(ticks, Price()), |ticks| - 1);
            && b.open == PriceOf(ticks[0]) && b.close == PriceOf(ticks[n])
            && b.high == MaxOf(prices) && b.low == MinOf(prices)
            && b.firstVolume == ticks[0].volume && b.lastVolume == ticks[n].volume
            && b.session == SessionOf(ticks[0]) && b.source == ticks[0].source
  {
    var n := |ticks| - 1;
    assert ticks[..n + 1] == ticks;
    MapNext(ticks, Price(), n);
    if n > 0 {
      FoldMeaning(ticks[..n]);
      MaxOfAppend(Map(ticks[..n], Price()), PriceOf(ticks[n]));
      MinOfAppend(Map(ticks[..n], Price()), PriceOf(ticks[n]));
    } else {
      assert Map(ticks, Price()) == [PriceOf(ticks[0])];
    }
  }

  /** A candle spans its ticks: open and close lie between low and high, and volume is never negative. */
  lemma CandleSpans(ticks: seq<Quote>, tag: Tag)
    requires ticks != []
    ensures var c := CandleOf(Fold(ticks), tag);
            && c.low <= c.open <= c.high && c.low <= c.close <= c.high
            && (c.volume.Some? ==> c.volume.value >= 0)
            && forall i :: 0 <= i < |ticks| ==> c.low <= PriceOf(ticks[i]) <= c.high
  {
    FoldMeaning(ticks);
    var prices := Map(ticks, Price());
    MapAt(ticks, Price());
    MaxOfGreatest(prices);
    MinOfLeast(prices);
    forall i | 0 <= i < |ticks| ensures MinOf(prices) <= PriceOf(ticks[i]) <= MaxOf(prices) {
      assert prices[i] == PriceOf(ticks[i]);
    }
  }

  // ------------------------------------------------------------------ segments of one key

  predicate IsTickOf(key: Key, q: Quote) {
    Priced(q) && KeyOf(q) == key
  }

  function TickOf(key: Key): Quote -> bool {
    (q: Quote) => IsTickOf(key, q)
  }

  function Ticks(quotes: seq<Quote>, key: Key): seq<Quote> {
    Filter(quotes, TickOf(key))
  }

  /** Segments already flushed, and the one still in memory. */
  datatype Segments = Segments(closed: seq<seq<Quote>>, open: seq<Quote>)

  function Close(s: Segments): Segments {
    if s.open == [] then s else Segments(s.closed + [s.open], [])
  }

  function SegmentsAfter(s: Segments, poll: Poll, key: Key): Segments {
    if poll.None? then s
    else
      var taken := s.(open := s.open + Ticks(poll.value, key));
      var current := CurrentMinute(poll.value);
      if current.Some? && Ready(key, current) then Close(taken) else taken
  }

  function SegmentsOf(polls: seq<Poll>, key: Key): Segments {
    if polls == [] then Segments([], [])
    else SegmentsAfter(SegmentsOf(polls[..|polls| - 1], key), polls[|polls| - 1], key)
  }

  /** The segments a finished run has flushed for a key. */
  function FinalSegments(polls: seq<Poll>, key: Key): seq<seq<Quote>> {
    Close(SegmentsOf(polls, key)).closed
  }

  function Concat(segments: seq<seq<Quote>>): seq<Quote> {
    if segments == [] then [] else Concat(segments[..|segments| - 1]) + segments[|segments| - 1]
  }

  function AllTicks(polls: seq<Poll>, key: Key): seq<Quote> {
    if polls == [] then []
    else
      var last := polls[|polls| - 1];
      AllTicks(polls[..|polls| - 1], key) + if last.Some? then Ticks(last.value, key) else []
  }

  predicate NonEmptySegments(segments: seq<seq<Quote>>) {
    forall i :: 0 <= i < |segments| ==> segments[i] != []
  }

  /** Conservation: cut at the flushes, the segments are exactly the ticks received, in order. */
  lemma {:induction false} SegmentsConserve(polls: seq<Poll>, key: Key)
    ensures NonEmptySegments(SegmentsOf(polls, key).closed)
    ensures Concat(SegmentsOf(polls, key).closed) + SegmentsOf(polls, key).open == AllTicks(polls, key)
  {
    if polls != [] {
      var front, last := polls[..|polls| - 1], polls[|polls| - 1];
      SegmentsConserve(front, key);
      if last.Some? {
        var s := SegmentsOf(front, key);
        var taken := s.(open := s.open + Ticks(last.value, key));
        assert Concat(s.closed) + (s.open + Ticks(last.value, key))
               == Concat(s.closed) + s.open + Ticks(last.value, key);
      }
    }
  }

  lemma FinalConserves(polls: seq<Poll>, key: Key)
    ensures NonEmptySegments(FinalSegments(polls, key))
    ensures Concat(FinalSegments(polls, key)) == AllTicks(polls, key)
  {
    SegmentsConserve(polls, key);
  }

  // ------------------------------------------------------------------ minutes and volume

  /** When a quote happened: its event time, or the time it was received at without one. */
  function HappenedAt(q: Quote): int {
    match q.eventTime
    case Some(t) => t
    case None => q.receivedAt
  }

  /** A tick belongs to the whole minute it happened in. */
  lemma TickMinute(q: Quote, key: Key)
    ensures IsTickOf(key, q) <==>
            && q.last.Some? && q.symbol == key.0
            && key.1 % 60 == 0 && key.1 <= HappenedAt(q) < key.1 + 60
  {
    var t := HappenedAt(q);
    assert t == t / 60 * 60 + t % 60;
  }

  /** A candle's volume is what the counter gained from its first tick to its last; it is unknown
      when either is unknown or the counter fell. */
  lemma CandleVolume(ticks: seq<Quote>, tag: Tag)
    requires ticks != []
    ensures var (v, first, last) := (CandleOf(Fold(ticks), tag).volume, ticks[0].volume, ticks[|ticks| - 1].volume);
            && (v.Some? <==> first.Some? && last.Some? && last.value >= first.value)
            && (v.Some? ==> first.value + v.value == last.value)
  {
    FoldMeaning(ticks);
  }

  /** Last prices of the ticks, where every tick has one. */
  ghost predicate AllPriced(ticks: seq<Quote>) {
    forall i :: 0 <= i < |ticks| ==> ticks[i].last.Some?
  }

  /** The prices of a candle are last prices of its ticks: the first, one that none exceeds, one
      that none falls below, the last. Its session is that of the first tick, "unknown" where that
      is missing or empty. */
  lemma CandlePrices(ticks: seq<Quote>, tag: Tag)
    requires ticks != [] && AllPriced(ticks)
    ensures var (c, n) := (CandleOf(Fold(ticks), tag), |ticks| - 1);
            && Some(c.open) == ticks[0].last && Some(c.close) == ticks[n].last
            && (exists i :: 0 <= i <= n && ticks[i].last == Some(c.high))
            && (exists i :: 0 <= i <= n && ticks[i].last == Some(c.low))
            && (forall i :: 0 <= i <= n ==> c.low <= ticks[i].last.value <= c.high)
            && c.source == ticks[0].source
    ensures var session := Fold(ticks).session;
            if ticks[0].session in {None, Some("")} then session == "unknown" else Some(session) == ticks[0].session
  {
    var prices := Map(ticks, Price());
    FoldMeaning(ticks);
    CandleSpans(ticks, tag);
    MapAt(ticks, Price());
    MaxOfGreatest(prices);
    MinOfLeast(prices);
    forall i | 0 <= i < |ticks| ensures Some(prices[i]) == ticks[i].last {
    }
  }
}
