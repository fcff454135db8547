/** Streaming one-minute candles: quotes folded into an in-memory map, flushed minute by
    minute and written first-writer-wins, proved to agree with batch aggregation. */
module Capture {
  import opened Sequences

  datatype Quote = Quote(
    symbol: string, eventTime: Option<int>, receivedAt: int, last: Option<real>, volume: Option<int>,
    session: Option<string>, source: string)

  /** Symbol and minute of a bar in progress. */
  type Key = (string, int)

  /** Symbol, minute and session of a stored candle. */
  type CandleKey = (string, int, string)

  datatype BarState = BarState(
    open: real, high: real, low: real, close: real, firstVolume: Option<int>, lastVolume: Option<int>, session: string,
    source: string)

  /** Which capture window of which event a run records. */
  datatype Tag = Tag(window: string, earningsDate: int)

  datatype Candle = Candle(tag: Tag, open: real, high: real, low: real, close: real, volume: Option<int>,
                           source: string)

  type Candles = map<CandleKey, Candle>

  datatype State = State(bars: map<Key, BarState>, candles: Candles, observed: set<string>)

  // ------------------------------------------------------------------ one bar

  function PriceOf(q: Quote): real {
    if q.last.Some? then q.last.value else 0.0
  }

  function SessionOf(q: Quote): string {
    if q.session.Some? && q.session.value != "" then q.session.value else "unknown"
  }

  function BucketMinute(q: Quote): int {
    var ts := if q.eventTime.Some? then q.eventTime.value else q.receivedAt;
    ts - ts % 60
  }

  function KeyOf(q: Quote): Key {
    (q.symbol, BucketMinute(q))
  }

  function NewBar(q: Quote): BarState {
    BarState(PriceOf(q), PriceOf(q), PriceOf(q), PriceOf(q), q.volume, q.volume, SessionOf(q), q.source)
  }

  function Updated(b: BarState, q: Quote): BarState {
    b.(high := Max2(b.high, PriceOf(q)), low := Min2(b.low, PriceOf(q)), close := PriceOf(q), lastVolume := q.volume)
  }

  /** A negative difference means the counter was reset, and counts as unknown. */
  function VolumeDelta(b: BarState): Option<int> {
    if b.firstVolume.None? || b.lastVolume.None? || b.lastVolume.value < b.firstVolume.value then None
    else Some(b.lastVolume.value - b.firstVolume.value)
  }

  function CandleOf(b: BarState, tag: Tag): Candle {
    Candle(tag, b.open, b.high, b.low, b.close, VolumeDelta(b), b.source)
  }

  /** All ticks of a bar, folded in the order they arrived. */
  function Fold(ticks: seq<Quote>): BarState
    requires ticks != []
  {
    if |ticks| == 1 then NewBar(ticks[0]) else Updated(Fold(ticks[..|ticks| - 1]), ticks[|ticks| - 1])
  }

  // ------------------------------------------------------------------ one poll

  predicate Priced(q: Quote) {
    q.last.Some?
  }

  function Absorbed(bars: map<Key, BarState>, q: Quote): map<Key, BarState> {
    if !Priced(q) then bars
    else bars[KeyOf(q) := if KeyOf(q) in bars then Updated(bars[KeyOf(q)], q) else NewBar(q)]
  }

  function AbsorbedAll(bars: map<Key, BarState>, quotes: seq<Quote>): map<Key, BarState> {
    if quotes == [] then bars else Absorbed(AbsorbedAll(bars, quotes[..|quotes| - 1]), quotes[|quotes| - 1])
  }

  function Noticed(observed: set<string>, quotes: seq<Quote>): set<string> {
    observed + set i | 0 <= i < |quotes| && Priced(quotes[i]) :: quotes[i].symbol
  }

  /** The latest minute any priced quote of the poll falls in. */
  function CurrentMinute(quotes: seq<Quote>): Option<int> {
    if quotes == [] then None
    else
      var rest, q := CurrentMinute(quotes[..|quotes| - 1]), quotes[|quotes| - 1];
      if Priced(q) && (rest.None? || BucketMinute(q) > rest.value) then Some(BucketMinute(q)) else rest
  }

  predicate Ready(key: Key, before: Option<int>) {
    before.None? || key.1 < before.value
  }

  function Kept(bars: map<Key, BarState>, before: Option<int>): map<Key, BarState> {
    map key | key in bars && !Ready(key, before) :: bars[key]
  }

  /** The candles a flush offers to the table. */
  function Offered(bars: map<Key, BarState>, before: Option<int>, tag: Tag): Candles {
    var keys := set key | key in bars && Ready(key, before) :: (key.0, key.1, bars[key].session);
    map c | c in keys && (c.0, c.1) in bars :: CandleOf(bars[(c.0, c.1)], tag)
  }

  function Flushed(s: State, before: Option<int>, tag: Tag): State {
    State(Kept(s.bars, before), Offered(s.bars, before, tag) + s.candles, s.observed)
  }

  function Taken(s: State, quotes: seq<Quote>): State {
    State(AbsorbedAll(s.bars, quotes), s.candles, Noticed(s.observed, quotes))
  }

  /** A failed poll changes nothing; another folds its quotes in and flushes every minute
      before its latest one. */
  function Polled(s: State, poll: Option<seq<Quote>>, tag: Tag): State {
    if poll.None? then s
    else
      var taken := Taken(s, poll.value);
      if CurrentMinute(poll.value).None? then taken else Flushed(taken, CurrentMinute(poll.value), tag)
  }

  function PolledAll(s: State, polls: seq<Option<seq<Quote>>>, tag: Tag): State {
    if polls == [] then s else Polled(PolledAll(s, polls[..|polls| - 1], tag), polls[|polls| - 1], tag)
  }

  /** A whole run: every poll, then a flush of everything still in memory. */
  function Captured(initial: Candles, polls: seq<Option<seq<Quote>>>, tag: Tag): State {
    Flushed(PolledAll(State(map[], initial, {}), polls, tag), None, tag)
  }

  // ------------------------------------------------------------------ the accumulator object

  class BarInProgress {
    var open: real
    var high: real
    var low: real
    var close: real
    var firstVolume: Option<int>
    var lastVolume: Option<int>
    var session: string
    var source: string

    constructor (q: Quote)
      ensures Contents() == NewBar(q)
    {
      open, high, low, close := PriceOf(q), PriceOf(q), PriceOf(q), PriceOf(q);
      firstVolume, lastVolume := q.volume, q.volume;
      session := if q.session.Some? && q.session.value != "" then q.session.value else "unknown";
      source := q.source;
    }

    function Contents(): BarState
      reads this
    {
      BarState(open, high, low, close, firstVolume, lastVolume, session, source)
    }

    method Update(q: Quote)
      modifies this
      ensures Contents() == Updated(old(Contents()), q)
    {
      var last := PriceOf(q);
      high := if high < last then last else high;
      low := if last < low then last else low;
      close := last;
      lastVolume := q.volume;
    }
  }

  // ------------------------------------------------------------------ the run object

  class CaptureRun {
    const tag: Tag
    var bars: map<Key, BarInProgress>
    var candles: Candles
    var observed: set<string>

    constructor (initial: Candles, tag: Tag)
      ensures && Valid()
              && fresh(Objects())
              && Contents() == State(map[], initial, {})
              && this.tag == tag
    {
      this.tag := tag;
      bars, candles, observed := map[], initial, {};
    }

    ghost function Objects(): set<object>
      reads this
    {
      set key | key in bars :: bars[key] as object
    }

    /** No two keys share an accumulator. */
    ghost predicate Valid()
      reads this
    {
      forall a, b :: a in bars && b in bars && bars[a] == bars[b] ==> a == b
    }

    ghost function BarStates(): map<Key, BarState>
      reads this, Objects()
    {
      map key | key in bars :: bars[key].Contents()
    }

    ghost function Contents(): State
      reads this, Objects()
    {
      State(BarStates(), candles, observed)
    }

    method UpdateBar(key: Key, q: Quote)
      requires Valid() && key in bars
      modifies Objects()
      ensures Valid() && bars == old(bars)
      ensures BarStates() == old(BarStates())[key := Updated(old(BarStates())[key], q)]
    {
      ghost var states := BarStates();
      bars[key].Update(q);
      assert forall other :: other in bars && other != key ==> bars[other].Contents() == states[other];
    }

    method OpenBar(key: Key, q: Quote)
      requires Valid() && key !in bars
      modifies this`bars
      ensures Valid() && fresh(Objects() - old(Objects()))
      ensures BarStates() == old(BarStates())[key := NewBar(q)]
    {
      ghost var states := BarStates();
      var bar := new BarInProgress(q);
      bars := bars[key := bar];
      assert forall other :: other in states ==> bars[other].Contents() == states[other];
    }

    method Absorb(q: Quote)
      requires Valid() && Priced(q)
      modifies this, Objects()
      ensures Valid() && fresh(Objects() - old(Objects()))
      ensures BarStates() == Absorbed(old(BarStates()), q)
      ensures && candles == old(candles)
              && observed == old(observed) + {q.symbol}
    {
      var key := KeyOf(q);
      if key in bars {
        UpdateBar(key, q);
      } else {
        OpenBar(key, q);
      }
      observed := observed + {q.symbol};
    }

    method AbsorbQuotes(quotes: seq<Quote>) returns (current: Option<int>)
      requires Valid()
      modifies this, Objects()
      ensures Valid() && fresh(Objects() - old(Objects()))
      ensures BarStates() == AbsorbedAll(old(BarStates()), quotes)
      ensures && candles == old(candles)
              && observed == Noticed(old(observed), quotes)
      ensures current == CurrentMinute(quotes)
    {
      current := None;
      for i := 0 to |quotes|
        invariant Valid() && fresh(Objects() - old(Objects()))
        invariant BarStates() == AbsorbedAll(old(BarStates()), quotes[..i])
        invariant candles == old(candles) && observed == Noticed(old(observed), quotes[..i])
        invariant current == CurrentMinute(quotes[..i])
      {
        assert quotes[..i + 1][..i] == quotes[..i];
        NoticedNext(old(observed), quotes, i);
        var q := quotes[i];
        if q.last.None? {
          continue;
        }
        var minute := BucketMinute(q);
        if current.None? || minute > current.value {
          current := Some(minute);
        }
        Absorb(q);
      }
      assert quotes[..|quotes|] == quotes;
    }

    /** Writes the named bars to the table; the first writer of a candle wins. */
    method WriteCandles(ready: set<Key>)
      requires Valid() && ready <= bars.Keys
      modifies this`candles
      ensures candles == OfferedFrom(old(BarStates()), ready, tag) + old(candles)
    {
      ghost var states := BarStates();
      var todo := ready;
      while todo != {}
        invariant todo <= ready
        invariant candles == OfferedFrom(states, ready - todo, tag) + old(candles)
        decreases |todo|
      {
        var key :| key in todo;
        OfferedStep(states, ready - todo, key, tag, old(candles));
        var bar := bars[key];
        assert bar.Contents() == states[key];
        var candleKey := (key.0, key.1, bar.session);
        if candleKey !in candles {
          candles := candles[candleKey := CandleOf(bar.Contents(), tag)];
        }
        TakeOne(ready, todo, key);
        todo := todo - {key};
      }
      assert ready - todo == ready;
    }

    /** Writes every ready bar and drops it from memory. */
    method Flush(before: Option<int>)
      requires Valid()
      modifies this
      ensures Valid() && Objects() <= old(Objects())
      ensures Contents() == Flushed(old(Contents()), before, tag)
    {
      var ready := set key | key in bars && Ready(key, before);
      ghost var states := BarStates();
      OfferedReady(states, before, tag);
      assert ready == set key | key in states && Ready(key, before);
      WriteCandles(ready);
      bars := map key | key in bars && key !in ready :: bars[key];
      assert BarStates() == Kept(states, before);
    }

    method Poll(poll: Option<seq<Quote>>)
      requires Valid()
      modifies this, Objects()
      ensures Valid() && fresh(Objects() - old(Objects()))
      ensures Contents() == Polled(old(Contents()), poll, tag)
    {
      if poll.None? {
        return;
      }
      var current := AbsorbQuotes(poll.value);
      if current.Some? {
        Flush(current);
      }
    }

    method Run(polls: seq<Option<seq<Quote>>>)
      requires Valid()
      modifies this, Objects()
      ensures Valid() && fresh(Objects() - old(Objects()))
      ensures Contents() == Flushed(PolledAll(old(Contents()), polls, tag), None, tag)
    {
      for i := 0 to |polls|
        invariant Valid() && fresh(Objects() - old(Objects()))
        invariant Contents() == PolledAll(old(Contents()), polls[..i], tag)
      {
        assert polls[..i + 1][..i] == polls[..i];
        Poll(polls[i]);
      }
      assert polls[..|polls|] == polls;
      Flush(None);
    }
  }

  lemma TakeOne(ready: set<Key>, todo: set<Key>, key: Key)
    requires key in todo && todo <= ready
    ensures ready - (todo - {key}) == ready - todo + {key}
  {
  }

  lemma NoticedNext(observed: set<string>, quotes: seq<Quote>, i: nat)
    requires i < |quotes|
    ensures Noticed(observed, quotes[..i + 1])
            == Noticed(observed, quotes[..i]) + if Priced(quotes[i]) then {quotes[i].symbol} else {}
  {
    var before, after := quotes[..i], quotes[..i + 1];
    assert forall k :: 0 <= k < i ==> after[k] == before[k];
    assert after[i] == quotes[i];
  }

  /** What a set of bars offers, one candle key each. */
  ghost function OfferedFrom(bars: map<Key, BarState>, keys: set<Key>, tag: Tag): Candles {
    map c | c in CandleKeys(bars, keys) && (c.0, c.1) in bars :: CandleOf(bars[(c.0, c.1)], tag)
  }

  ghost function CandleKeys(bars: map<Key, BarState>, keys: set<Key>): set<CandleKey> {
    set key | key in keys && key in bars :: (key.0, key.1, bars[key].session)
  }

  lemma OfferedStep(bars: map<Key, BarState>, done: set<Key>, key: Key, tag: Tag, candles: Candles)
    requires key in bars && key !in done
    ensures var c := (key.0, key.1, bars[key].session);
            OfferedFrom(bars, done + {key}, tag) + candles ==
            if c in OfferedFrom(bars, done, tag) + candles then OfferedFrom(bars, done, tag) + candles
            else (OfferedFrom(bars, done, tag) + candles)[c := CandleOf(bars[key], tag)]
  {
    var c := (key.0, key.1, bars[key].session);
    assert CandleKeys(bars, done + {key}) == CandleKeys(bars, done) + {c};
    assert OfferedFrom(bars, done + {key}, tag) == OfferedFrom(bars, done, tag)[c := CandleOf(bars[key], tag)];
  }

  lemma OfferedReady(bars: map<Key, BarState>, before: Option<int>, tag: Tag)
    ensures OfferedFrom(bars, (set key | key in bars && Ready(key, before)), tag) == Offered(bars, before, tag)
  {
  }
}
