/** What a capture run leaves in the candle table: each candle is the fold of the first
    segment of its ticks, and without late ticks it is the batch aggregation of everything
    that arrived. */
module CaptureLaws {
  import opened Sequences
  import opened Capture
  import opened CandleFolds

  // ------------------------------------------------------------------ memory holds the open segment

  ghost predicate Holds(bars: map<Key, BarState>, key: Key, open: seq<Quote>) {
    (key in bars <==> open != []) && (open != [] ==> bars[key] == Fold(open))
  }

  lemma AbsorbedHolds(bars: map<Key, BarState>, q: Quote, key: Key, open: seq<Quote>)
    requires Holds(bars, key, open)
    ensures Holds(Absorbed(bars, q), key, open + if IsTickOf(key, q) then [q] else [])
  {
    if IsTickOf(key, q) {
      assert (open + [q])[..|open|] == open;
    } else {
      assert open + [] == open;
    }
  }

  lemma {:induction false} AbsorbedAllHolds(bars: map<Key, BarState>, quotes: seq<Quote>, key: Key, open: seq<Quote>)
    requires Holds(bars, key, open)
    ensures Holds(AbsorbedAll(bars, quotes), key, open + Ticks(quotes, key))
  {
    if quotes == [] {
      assert open + Ticks(quotes, key) == open;
    } else {
      var n := |quotes| - 1;
      AbsorbedAllHolds(bars, quotes[..n], key, open);
      AbsorbedHolds(AbsorbedAll(bars, quotes[..n]), quotes[n], key, open + Ticks(quotes[..n], key));
      assert quotes[..n + 1] == quotes;
      FilterNext(quotes, TickOf(key), n);
      var next := if IsTickOf(key, quotes[n]) then [quotes[n]] else [];
      assert open + Ticks(quotes[..n], key) + next == open + (Ticks(quotes[..n], key) + next);
    }
  }

  // ------------------------------------------------------------------ the table holds first segments

  /** The first flushed segment opened in a given session. */
  function FirstOf(segments: seq<seq<Quote>>, session: string): (r: Option<seq<Quote>>)
    ensures r.Some? ==> r.value != []
  {
    if segments == [] then None
    else if FirstOf(segments[..|segments| - 1], session).Some? then FirstOf(segments[..|segments| - 1], session)
    else
      var last := segments[|segments| - 1];
      if last != [] && SessionOf(last[0]) == session then Some(last) else None
  }

  /** What the table should hold under a candle key. */
  function Expected(initial: Candles, closed: seq<seq<Quote>>, c: CandleKey, tag: Tag): Option<Candle> {
    if c in initial then Some(initial[c])
    else
      var first := FirstOf(closed, c.2);
      if first.Some? then Some(CandleOf(Fold(first.value), tag)) else None
  }

  function Stored(candles: Candles, c: CandleKey): Option<Candle> {
    if c in candles then Some(candles[c]) else None
  }

  lemma FoldSession(ticks: seq<Quote>)
    requires ticks != []
    ensures Fold(ticks).session == SessionOf(ticks[0])
  {
    FoldMeaning(ticks);
  }

  /** A flush closes the open segment of every ready key and leaves the others alone. */
  lemma FlushHolds(s: State, before: Option<int>, tag: Tag, segs: Segments, initial: Candles, c: CandleKey)
    requires var key := (c.0, c.1);
             Holds(s.bars, key, segs.open) && Stored(s.candles, c) == Expected(initial, segs.closed, c, tag)
    ensures var key := (c.0, c.1);
            var after := if Ready(key, before) then Close(segs) else segs;
            && Holds(Flushed(s, before, tag).bars, key, after.open)
            && Stored(Flushed(s, before, tag).candles, c) == Expected(initial, after.closed, c, tag)
  {
    var key := (c.0, c.1);
    if segs.open != [] {
      FoldSession(segs.open);
      assert (segs.closed + [segs.open])[..|segs.closed|] == segs.closed;
    }
  }

  ghost predicate Tracks(s: State, segs: Segments, initial: Candles, c: CandleKey, tag: Tag) {
    Holds(s.bars, (c.0, c.1), segs.open) && Stored(s.candles, c) == Expected(initial, segs.closed, c, tag)
  }

  lemma PollTracks(s: State, poll: Poll, segs: Segments, initial: Candles, c: CandleKey, tag: Tag)
    requires Tracks(s, segs, initial, c, tag)
    ensures Tracks(Polled(s, poll, tag), SegmentsAfter(segs, poll, (c.0, c.1)), initial, c, tag)
  {
    if poll.Some? {
      var key := (c.0, c.1);
      AbsorbedAllHolds(s.bars, poll.value, key, segs.open);
      var taken := segs.(open := segs.open + Ticks(poll.value, key));
      if CurrentMinute(poll.value).Some? {
        FlushHolds(Taken(s, poll.value), CurrentMinute(poll.value), tag, taken, initial, c);
      }
    }
  }

  lemma {:induction false} RunTracks(polls: seq<Poll>, initial: Candles, c: CandleKey, tag: Tag)
    ensures Tracks(PolledAll(State(map[], initial, {}), polls, tag), SegmentsOf(polls, (c.0, c.1)), initial, c, tag)
  {
    if polls != [] {
      var front := polls[..|polls| - 1];
      RunTracks(front, initial, c, tag);
      PollTracks(PolledAll(State(map[], initial, {}), front, tag), polls[|polls| - 1], SegmentsOf(front, (c.0, c.1)),
                 initial, c, tag);
    }
  }

  /** The table after any run: what was there before, or the fold of the first segment of the
      minute opened in that session. Nothing is left in memory. */
  lemma TableMeaning(polls: seq<Poll>, initial: Candles, c: CandleKey, tag: Tag)
    ensures Stored(Captured(initial, polls, tag).candles, c)
            == Expected(initial, FinalSegments(polls, (c.0, c.1)), c, tag)
    ensures Captured(initial, polls, tag).bars == map[]
  {
    RunTracks(polls, initial, c, tag);
    FlushHolds(PolledAll(State(map[], initial, {}), polls, tag), None, tag, SegmentsOf(polls, (c.0, c.1)), initial, c);
  }

  // ------------------------------------------------------------------ batch agreement

  predicate PastMinute(poll: Poll, key: Key) {
    poll.Some? && CurrentMinute(poll.value).Some? && key.1 < CurrentMinute(poll.value).value
  }

  function PollTicks(poll: Poll, key: Key): seq<Quote> {
    if poll.Some? then Ticks(poll.value, key) else []
  }

  /** Poll `i` reaches a later minute when ticks of the key have arrived: its bar is written. */
  ghost predicate ClosesAt(polls: seq<Poll>, key: Key, i: nat)
    requires i < |polls|
  {
    PastMinute(polls[i], key) && AllTicks(polls[..i + 1], key) != []
  }

  ghost predicate Closed(polls: seq<Poll>, key: Key) {
    exists i :: 0 <= i < |polls| && ClosesAt(polls, key, i)
  }

  /** No tick of the key arrives after its bar was first written. */
  ghost predicate NoLateTick(polls: seq<Poll>, key: Key) {
    forall j :: 0 <= j < |polls| && Closed(polls[..j], key) ==> PollTicks(polls[j], key) == []
  }

  /** The ticks that arrive until the bar is first written. */
  ghost function EarlyTicks(polls: seq<Poll>, key: Key): seq<Quote> {
    if polls == [] then []
    else
      var front := polls[..|polls| - 1];
      EarlyTicks(front, key) + if Closed(front, key) then [] else PollTicks(polls[|polls| - 1], key)
  }

  lemma ClosedNext(polls: seq<Poll>, key: Key)
    requires polls != []
    ensures Closed(polls, key) <==> Closed(polls[..|polls| - 1], key) || ClosesAt(polls, key, |polls| - 1)
  {
    var n := |polls| - 1;
    forall i | 0 <= i < n ensures ClosesAt(polls, key, i) <==> ClosesAt(polls[..n], key, i) {
      assert polls[..n][..i + 1] == polls[..i + 1];
    }
    if Closed(polls[..n], key) {
      var i :| 0 <= i < n && ClosesAt(polls[..n], key, i);
      assert ClosesAt(polls, key, i);
    }
  }

  lemma {:induction false} FirstSegmentTicks(polls: seq<Poll>, key: Key)
    ensures var s := SegmentsOf(polls, key);
            if Closed(polls, key) then s.closed != [] && s.closed[0] == EarlyTicks(polls, key)
            else s.closed == [] && s.open == EarlyTicks(polls, key) == AllTicks(polls, key)
  {
    if polls != [] {
      var n := |polls| - 1;
      FirstSegmentTicks(polls[..n], key);
      ClosedNext(polls, key);
      assert polls[..n + 1] == polls;
    }
  }

  lemma {:induction false} EarlyIsAll(polls: seq<Poll>, key: Key)
    ensures |EarlyTicks(polls, key)| <= |AllTicks(polls, key)|
    ensures EarlyTicks(polls, key) == AllTicks(polls, key) <==> NoLateTick(polls, key)
  {
    if polls != [] {
      var n := |polls| - 1;
      EarlyIsAll(polls[..n], key);
      LateNext(polls, key);
      if EarlyTicks(polls, key) == AllTicks(polls, key) {
        assert AllTicks(polls, key)[..|EarlyTicks(polls[..n], key)|] == EarlyTicks(polls[..n], key);
      }
    }
  }

  lemma LateNext(polls: seq<Poll>, key: Key)
    requires polls != []
    ensures var n := |polls| - 1;
            NoLateTick(polls, key) <==>
            NoLateTick(polls[..n], key) && (Closed(polls[..n], key) ==> PollTicks(polls[n], key) == [])
  {
    var n := |polls| - 1;
    forall j | 0 <= j < n ensures polls[..n][..j] == polls[..j] {
    }
  }

  /** Whatever else a run receives, the candle of a minute holds the batch aggregation of the
      ticks that arrived until its bar was first written. These are all its ticks exactly
      when none arrives later. */
  lemma BatchAgreement(polls: seq<Poll>, initial: Candles, key: Key, tag: Tag)
    requires AllTicks(polls, key) != []
    ensures var ticks := EarlyTicks(polls, key);
            && ticks != []
            && var c := (key.0, key.1, SessionOf(ticks[0]));
               c !in initial ==> Stored(Captured(initial, polls, tag).candles, c) == Some(CandleOf(Fold(ticks), tag))
    ensures EarlyTicks(polls, key) == AllTicks(polls, key) <==> NoLateTick(polls, key)
  {
    EarlyIsAll(polls, key);
    FinalConserves(polls, key);
    FirstSegmentTicks(polls, key);
    var segments := FinalSegments(polls, key);
    FirstSegment(segments);
    TableMeaning(polls, initial, (key.0, key.1, SessionOf(segments[0][0])), tag);
  }

  function QuoteAt(time: int, price: real): Quote {
    Quote("AAA", Some(time), time, Some(price), None, Some("post"), "gateway")
  }

  lemma OneQuote(q: Quote, key: Key)
    ensures Ticks([q], key) == if IsTickOf(key, q) then [q] else []
    ensures Priced(q) ==> CurrentMinute([q]) == Some(BucketMinute(q))
  {
    assert [q][1..] == [] && [q][..0] == [];
    assert TickOf(key)(q) == IsTickOf(key, q);
    assert Filter([q][1..], TickOf(key)) == [];
  }

  /** A quote of minute 0 that arrives after one of minute 1: the stored candle never shows it. */
  lemma LateTickLost(tag: Tag) returns (polls: seq<Poll>, late: Quote)
    ensures late in AllTicks(polls, ("AAA", 0)) && PriceOf(late) == 120.0
    ensures Stored(Captured(map[], polls, tag).candles, ("AAA", 0, "post"))
            == Some(Candle(tag, 100.0, 100.0, 100.0, 100.0, None, "gateway"))
  {
    var key, first, next := ("AAA", 0), QuoteAt(0, 100.0), QuoteAt(60, 110.0);
    late := QuoteAt(30, 120.0);
    polls := [Some([first]), Some([next]), Some([late])];
    OneQuote(first, key);
    OneQuote(next, key);
    OneQuote(late, key);
    assert polls[..2] == [Some([first]), Some([next])] && polls[..2][..1] == [Some([first])];
    assert polls[..2][..1][..0] == [];
    assert AllTicks(polls[..2][..1], key) == [first];
    assert AllTicks(polls[..2], key) == [first];
    assert AllTicks(polls, key) == [first] + [late];
    assert polls[..2][..1 + 1] == polls[..2];
    assert ClosesAt(polls[..2], key, 1);
    assert EarlyTicks(polls[..2][..1], key) == [first];
    assert EarlyTicks(polls, key) == [first];
    BatchAgreement(polls, map[], key, tag);
  }

  // ------------------------------------------------------------------ every observed symbol

  ghost predicate SeenIn(poll: Poll, symbol: string) {
    poll.Some? && exists j :: 0 <= j < |poll.value| && Priced(poll.value[j]) && poll.value[j].symbol == symbol
  }

  ghost predicate Seen(polls: seq<Poll>, symbol: string) {
    exists i :: 0 <= i < |polls| && SeenIn(polls[i], symbol)
  }

  lemma {:induction false} ObservedSeen(polls: seq<Poll>, initial: Candles, tag: Tag, symbol: string)
    ensures symbol in PolledAll(State(map[], initial, {}), polls, tag).observed <==> Seen(polls, symbol)
  {
    if polls != [] {
      var n := |polls| - 1;
      ObservedSeen(polls[..n], initial, tag, symbol);
      assert polls == polls[..n] + [polls[n]];
    }
  }

  lemma {:induction false} TickCounted(polls: seq<Poll>, i: nat, q: Quote, key: Key)
    requires i < |polls| && polls[i].Some? && q in polls[i].value && IsTickOf(key, q)
    ensures AllTicks(polls, key) != []
  {
    var n := |polls| - 1;
    if i < n {
      TickCounted(polls[..n], i, q, key);
    } else {
      FilterMembers(polls[i].value, TickOf(key));
      assert q in Ticks(polls[i].value, key);
    }
  }

  /** Every symbol reported as observed has a candle of this or an earlier run. */
  lemma ObservedHasCandle(polls: seq<Poll>, initial: Candles, tag: Tag, symbol: string)
    requires symbol in Captured(initial, polls, tag).observed
    ensures exists c :: c in Captured(initial, polls, tag).candles && c.0 == symbol
  {
    ObservedSeen(polls, initial, tag, symbol);
    var i :| 0 <= i < |polls| && SeenIn(polls[i], symbol);
    var j :| 0 <= j < |polls[i].value| && Priced(polls[i].value[j]) && polls[i].value[j].symbol == symbol;
    var q := polls[i].value[j];
    var key := KeyOf(q);
    TickCounted(polls, i, q, key);
    FinalConserves(polls, key);
    var segments := FinalSegments(polls, key);
    FirstSegmentFound(segments);
    var c := (key.0, key.1, SessionOf(segments[0][0]));
    TableMeaning(polls, initial, c, tag);
    assert Stored(Captured(initial, polls, tag).candles, c).Some?;
  }

  lemma {:induction false} FirstSegmentFound(segments: seq<seq<Quote>>)
    requires NonEmptySegments(segments) && Concat(segments) != []
    ensures && segments != []
            && FirstOf(segments, SessionOf(segments[0][0])) == Some(segments[0])
  {
    FirstSegment(segments);
  }

  lemma {:induction false} FirstSegment(segments: seq<seq<Quote>>)
    requires NonEmptySegments(segments) && segments != []
    ensures FirstOf(segments, SessionOf(segments[0][0])) == Some(segments[0])
  {
    var n := |segments| - 1;
    if n > 0 {
      assert NonEmptySegments(segments[..n]);
      FirstSegment(segments[..n]);
    }
  }
}
