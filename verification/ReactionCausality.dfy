/** What a reaction may depend on: nothing after the time in question, nothing inside the
    trigger minute but its close, and not the order the bars were supplied in. */
module ReactionCausality {
  import opened Sequences
  import opened Bars
  import opened Reactions
  import opened ReactionLaws

  // ------------------------------------------------------------------ no look-ahead

  lemma {:induction false} FilterNone(s: seq<Bar>, t: int)
    requires forall i :: 0 <= i < |s| ==> s[i].ts > t
    ensures Filter(s, UpTo(t)) == []
  {
    if s != [] {
      FilterNone(s[1..], t);
    }
  }

  lemma {:induction false} FilterAll(s: seq<Bar>, t: int)
    requires forall i :: 0 <= i < |s| ==> s[i].ts <= t
    ensures Filter(s, UpTo(t)) == s
  {
    if s != [] {
      FilterAll(s[1..], t);
    }
  }

  lemma CountUpTo(s: seq<Bar>, t: int) returns (n: nat)
    requires Ascending(s)
    ensures n <= |s|
    ensures forall i :: 0 <= i < n ==> s[i].ts <= t
    ensures forall i :: n <= i < |s| ==> s[i].ts > t
  {
    n := 0;
    while n < |s| && s[n].ts <= t
      invariant n <= |s|
      invariant forall i :: 0 <= i < n ==> s[i].ts <= t
    {
      n := n + 1;
    }
  }

  /** Everything up to `t` is a prefix of a time-ordered window. */
  lemma PrefixUpTo(s: seq<Bar>, t: int) returns (n: nat)
    requires Ascending(s)
    ensures n <= |s| && Filter(s, UpTo(t)) == s[..n]
    ensures forall i :: n <= i < |s| ==> s[i].ts > t
  {
    n := CountUpTo(s, t);
    FilterAll(s[..n], t);
    VolumePrefix(s, n, t);
  }

  lemma {:induction false} CheckpointPrefix(s: seq<Bar>, n: nat, target: int)
    requires n <= |s| && forall i :: n <= i < |s| ==> s[i].ts > target
    ensures Checkpoint(s, target) == Checkpoint(s[..n], target)
    decreases |s|
  {
    if n == |s| {
      assert s[..n] == s;
    } else {
      CheckpointPrefix(s[..|s| - 1], n, target);
      assert s[..|s| - 1][..n] == s[..n];
    }
  }

  lemma VolumePrefix(s: seq<Bar>, n: nat, target: int)
    requires n <= |s| && forall i :: n <= i < |s| ==> s[i].ts > target
    ensures Filter(s, UpTo(target)) == Filter(s[..n], UpTo(target))
  {
    FilterNone(s[n..], target);
    FilterConcat(s[..n], s[n..], UpTo(target));
    assert s[..n] + s[n..] == s;
  }

  lemma MapPrefix<S, T>(s: seq<S>, f: S -> T, n: nat)
    requires n <= |s|
    ensures Map(s, f)[..n] == Map(s[..n], f)
  {
    MapAt(s, f);
    MapAt(s[..n], f);
  }

  ghost predicate AgreeUpTo(a: seq<Bar>, b: seq<Bar>, t: int) {
    forall x: Bar :: x.ts <= t ==> (x in a <==> x in b)
  }

  lemma CommonPrefix(a: seq<Bar>, b: seq<Bar>, t: int) returns (n: nat)
    requires Ascending(a) && Ascending(b) && AgreeUpTo(a, b, t)
    ensures n <= |a| && n <= |b| && a[..n] == b[..n]
    ensures forall i :: n <= i < |a| ==> a[i].ts > t
    ensures forall i :: n <= i < |b| ==> b[i].ts > t
  {
    n := PrefixUpTo(a, t);
    var m := PrefixUpTo(b, t);
    FilterMembers(a, UpTo(t));
    FilterMembers(b, UpTo(t));
    FilterAscending(a, UpTo(t));
    FilterAscending(b, UpTo(t));
    AscendingUnique(a[..n], b[..m]);
  }

  /** What two windows that agree up to `t` must share. */
  ghost predicate SameSoFar(p: real, start: int, a: seq<Bar>, b: seq<Bar>, t: int)
    requires p != 0.0
  {
    && (forall m :: Target(start, m) <= t ==>
          && Checkpoint(a, Target(start, m)) == Checkpoint(b, Target(start, m))
          && VolumeUpTo(start, a, m) == VolumeUpTo(start, b, m))
    && SameEarlyTrigger(p, a, b, t)
  }

  /** A trigger that fires in one window by `t` fires in the other one, on the same bar. */
  ghost predicate SameEarlyTrigger(p: real, a: seq<Bar>, b: seq<Bar>, t: int)
    requires p != 0.0
  {
    var k := TriggerIndex(Map(a, CloseReturn(p)));
    k < |a| && a[k].ts <= t ==> k == TriggerIndex(Map(b, CloseReturn(p))) && k < |b| && b[k] == a[k]
  }

  lemma WindowNoLookAhead(p: real, start: int, a: seq<Bar>, b: seq<Bar>, t: int)
    requires p != 0.0 && Ascending(a) && Ascending(b) && AgreeUpTo(a, b, t)
    ensures SameSoFar(p, start, a, b, t)
  {
    var n := CommonPrefix(a, b, t);
    forall m | Target(start, m) <= t
      ensures Checkpoint(a, Target(start, m)) == Checkpoint(b, Target(start, m))
      ensures VolumeUpTo(start, a, m) == VolumeUpTo(start, b, m)
    {
      CheckpointPrefix(a, n, Target(start, m));
      CheckpointPrefix(b, n, Target(start, m));
      VolumePrefix(a, n, Target(start, m));
      VolumePrefix(b, n, Target(start, m));
    }
    SameTrigger(Map(a, CloseReturn(p)), Map(b, CloseReturn(p)), n) by {
      MapPrefix(a, CloseReturn(p), n);
      MapPrefix(b, CloseReturn(p), n);
    }
    var k := TriggerIndex(Map(a, CloseReturn(p)));
    if k < |a| && a[k].ts <= t {
      assert k < n;
      assert a[..n][k] == b[..n][k];
    }
  }

  lemma SameTrigger(x: seq<real>, y: seq<real>, n: nat)
    requires n <= |x| && n <= |y| && x[..n] == y[..n]
    ensures TriggerIndex(x) < n ==> TriggerIndex(y) == TriggerIndex(x)
  {
    forall j | 0 <= j < n ensures x[j] == y[j] {
      assert x[..n][j] == y[..n][j];
    }
  }

  lemma EventsNoLookAhead(e1: EventEvidence, e2: EventEvidence, t: int)
    requires Accepted(e1) && Accepted(e2)
    requires e1.postmarketStart == e2.postmarketStart && PreClose(e1) == PreClose(e2)
    requires AgreeUpTo(e1.postmarketBars, e2.postmarketBars, t)
    ensures SameSoFar(PreClose(e1), e1.postmarketStart.value, StudyBars(e1), StudyBars(e2), t)
  {
    StudyContents(e1);
    StudyContents(e2);
    WindowNoLookAhead(PreClose(e1), e1.postmarketStart.value, StudyBars(e1), StudyBars(e2), t);
  }

  lemma {:induction false} CarryFlagsMembers(start: int, study: seq<Bar>, horizons: seq<int>, m: int, age: int)
    ensures CarriedForward(m, age) in CarryFlags(start, study, horizons) <==>
            m in horizons && CarryFlag(start, study, m) == [CarriedForward(m, age)]
  {
    if horizons != [] {
      var n := |horizons| - 1;
      CarryFlagsMembers(start, study, horizons[..n], m, age);
      assert horizons == horizons[..n] + [horizons[n]];
    }
  }

  lemma StoredFlags(e: EventEvidence, m: int, age: int)
    requires Accepted(e)
    ensures CarriedForward(m, age) in Features(e).flags <==>
            m in HORIZONS_MINUTES && CarryFlag(e.postmarketStart.value, StudyBars(e), m) == [CarriedForward(m, age)]
  {
    var start, study := e.postmarketStart.value, StudyBars(e);
    CarryFlagsMembers(start, study, HORIZONS_MINUTES, m, age);
    MapAt(e.flags, RecordedFlag);
    assert Features(e).flags == FlagsOf(e.flags, start, study);
  }

  /** The columns of a horizon that was due by then, stored alike for both events. */
  ghost predicate SameHorizon(f1: ReactionFeatures, f2: ReactionFeatures, m: int) {
    && Get(f1.measures.horizonReturns, m) == Get(f2.measures.horizonReturns, m)
    && Get(f1.measures.cumulativeVolume, m) == Get(f2.measures.cumulativeVolume, m)
    && forall age :: CarriedForward(m, age) in f1.flags <==> CarriedForward(m, age) in f2.flags
  }

  /** What a horizon's columns hold, for the window they were computed from. */
  ghost predicate HorizonStored(f: ReactionFeatures, p: real, start: int, study: seq<Bar>, m: int)
    requires p != 0.0
  {
    && Get(f.measures.horizonReturns, m) == HorizonReturn(p, start, study, m)
    && Get(f.measures.cumulativeVolume, m) == Some(VolumeUpTo(start, study, m))
    && forall age :: CarriedForward(m, age) in f.flags <==> CarryFlag(start, study, m) == [CarriedForward(m, age)]
  }

  lemma StoredHorizon(e: EventEvidence, m: int) returns (f: ReactionFeatures)
    requires Accepted(e) && m in HORIZONS_MINUTES
    ensures f == Features(e) && HorizonStored(f, PreClose(e), e.postmarketStart.value, StudyBars(e), m)
  {
    f := Features(e);
    assert f.measures == MeasuresOf(PreClose(e), e.postmarketStart.value, StudyBars(e));
    forall age
      ensures CarriedForward(m, age) in f.flags
              <==> CarryFlag(e.postmarketStart.value, StudyBars(e), m) == [CarriedForward(m, age)]
    {
      StoredFlags(e, m, age);
    }
  }

  lemma HorizonAlike(f1: ReactionFeatures, f2: ReactionFeatures, p: real, start: int, a: seq<Bar>, b: seq<Bar>, t: int,
                     m: int)
    requires p != 0.0 && SameSoFar(p, start, a, b, t) && Target(start, m) <= t
    requires HorizonStored(f1, p, start, a, m) && HorizonStored(f2, p, start, b, m)
    ensures SameHorizon(f1, f2, m)
  {
  }

  lemma HorizonNoLookAhead(e1: EventEvidence, e2: EventEvidence, p: real, start: int, t: int, m: int)
    requires Accepted(e1) && Accepted(e2) && m in HORIZONS_MINUTES
    requires e1.postmarketStart == e2.postmarketStart == Some(start) && PreClose(e1) == PreClose(e2) == p
    requires SameSoFar(p, start, StudyBars(e1), StudyBars(e2), t)
    requires Target(start, m) <= t
    ensures SameHorizon(Features(e1), Features(e2), m)
  {
    var f1 := StoredHorizon(e1, m);
    var f2 := StoredHorizon(e2, m);
    HorizonAlike(f1, f2, p, start, StudyBars(e1), StudyBars(e2), t, m);
  }

  /** Every checkpoint and the volume are there, and a bar follows the trigger. */
  ghost predicate Confirms(p: real, start: int, study: seq<Bar>)
    requires p != 0.0
  {
    && MissingCheckpoints(p, start, study) == [] && VwapProxy(study).Some?
    && TriggerIndex(Map(study, CloseReturn(p))) + 1 < |study|
  }

  /** The signal of a trigger bar. */
  ghost predicate SignalOfBar(s: Signal, p: real, start: int, bar: Bar)
    requires p != 0.0
  {
    && s.timestamp == Some(bar.ts + MINUTE)
    && s.delay == Some(DelayMinutes(start, bar.ts + MINUTE))
    && s.initialReturn == Some(PctChange(p, bar.close))
  }

  /** A window that confirms its trigger stores the signal of the trigger bar, any other none. */
  ghost predicate SignalAtTrigger(s: Signal, p: real, start: int, study: seq<Bar>)
    requires p != 0.0
  {
    if Confirms(p, start, study)
    then SignalOfBar(s, p, start, study[TriggerIndex(Map(study, CloseReturn(p)))])
    else s == NO_SIGNAL
  }

  lemma WindowSignal(p: real, start: int, study: seq<Bar>, v: Verdict)
    requires p > 0.0 && v == VerdictOf(p, start, study)
    ensures SignalAtTrigger(v.signal, p, start, study)
  {
    var k := TriggerIndex(Map(study, CloseReturn(p)));
    if Signals(p, start, study, k) {
      SignalVerdict(p, start, study, k);
      MapAt(study, CloseReturn(p));
    } else {
      NoSignalVerdict(p, start, study);
    }
  }

  lemma StoredSignal(e: EventEvidence) returns (s: Signal)
    requires Accepted(e)
    ensures s == Features(e).signal && SignalAtTrigger(s, PreClose(e), e.postmarketStart.value, StudyBars(e))
  {
    var v, _ := StoredVerdict(e);
    WindowSignal(PreClose(e), e.postmarketStart.value, StudyBars(e), v);
    s := v.signal;
  }

  lemma SignalNoLookAhead(s1: Signal, s2: Signal, p: real, start: int, a: seq<Bar>, b: seq<Bar>, t: int)
    requires p != 0.0 && SameEarlyTrigger(p, a, b, t)
    requires SignalAtTrigger(s1, p, start, a) && SignalAtTrigger(s2, p, start, b)
    ensures SameEarlySignal(s1, s2, p, start, b, t)
  {
  }

  /** A signal known by the end of minute `t` is stored for the other window as well, exactly
      when that window confirms its trigger; otherwise that one stores no signal at all. */
  ghost predicate SameEarlySignal(s1: Signal, s2: Signal, p: real, start: int, b: seq<Bar>, t: int)
    requires p != 0.0
  {
    s1.timestamp.Some? && s1.timestamp.value <= t + MINUTE ==>
      if Confirms(p, start, b)
      then s2.timestamp == s1.timestamp && s2.delay == s1.delay && s2.initialReturn == s1.initialReturn
      else s2 == NO_SIGNAL
  }

  /** Two accepted events that agree on the bars up to `t` store the same return, volume and
      carry flag for every horizon due by `t`, and fire the same trigger by `t`. A signal known
      by then is stored for both, unless the other window does not confirm it. */
  lemma NoLookAhead(e1: EventEvidence, e2: EventEvidence, t: int)
    requires Accepted(e1) && Accepted(e2)
    requires e1.postmarketStart == e2.postmarketStart && PreClose(e1) == PreClose(e2)
    requires AgreeUpTo(e1.postmarketBars, e2.postmarketBars, t)
    ensures forall m :: m in HORIZONS_MINUTES && Target(e1.postmarketStart.value, m) <= t ==>
                          SameHorizon(Features(e1), Features(e2), m)
    ensures SameEarlyTrigger(PreClose(e1), StudyBars(e1), StudyBars(e2), t)
    ensures SameEarlySignal(Features(e1).signal, Features(e2).signal, PreClose(e2), e2.postmarketStart.value,
                            StudyBars(e2), t)
  {
    EventsNoLookAhead(e1, e2, t);
    forall m | m in HORIZONS_MINUTES && Target(e1.postmarketStart.value, m) <= t
      ensures SameHorizon(Features(e1), Features(e2), m)
    {
      HorizonNoLookAhead(e1, e2, PreClose(e1), e1.postmarketStart.value, t, m);
    }
    var s1 := StoredSignal(e1);
    var s2 := StoredSignal(e2);
    SignalNoLookAhead(s1, s2, PreClose(e1), e1.postmarketStart.value, StudyBars(e1), StudyBars(e2), t);
  }

  lemma EarlyBarsMiss(p: real, start: int, study: seq<Bar>)
    requires p != 0.0 && Ascending(study)
    requires forall b :: b in study ==> (Target(start, 105) - b.ts) / MINUTE > MAX_CHECKPOINT_CARRY_MINUTES
    ensures !Confirms(p, start, study)
  {
    CheckpointIsLatest(study, Target(start, 105));
    FilterMembers(HORIZONS_MINUTES, MissingAt(p, start, study));
    assert HORIZONS_MINUTES[5] == 105;
    assert MissingAt(p, start, study)(105);
    assert 105 in MissingCheckpoints(p, start, study);
  }

  lemma FirstHourBars(price: real)
    requires price > 0.0
    ensures WindowBars(Flat(-60, 100.0), FirstHour(price))
    ensures !Confirms(100.0, 0, FirstHour(price))
  {
    EarlyBarsMiss(100.0, 0, FirstHour(price));
  }

  lemma SteadyConfirms(price: real)
    requires price >= 102.0
    ensures WindowBars(Flat(-60, 100.0), Steady(price)) && Confirms(100.0, 0, Steady(price))
    ensures TriggerIndex(Map(Steady(price), CloseReturn(100.0))) == 0 && Steady(price)[0].ts == 0
    ensures AgreeUpTo(Steady(price), FirstHour(price), 3540)
  {
    SteadySignals(price);
  }

  lemma ConfirmedSignal(s: Signal, p: real, start: int, study: seq<Bar>)
    requires p != 0.0 && SignalAtTrigger(s, p, start, study) && Confirms(p, start, study)
    ensures SignalOfBar(s, p, start, study[TriggerIndex(Map(study, CloseReturn(p)))])
  {
  }

  lemma UnconfirmedSilent(e: EventEvidence, p: real, start: int, study: seq<Bar>)
    requires Accepted(e) && e.postmarketStart == Some(start) && PreClose(e) == p && StudyBars(e) == study
    requires !Confirms(p, start, study)
    ensures Features(e).signal == NO_SIGNAL
  {
    var s := StoredSignal(e);
  }

  /** Two events alike through the first hour, both triggered in its first minute: the one
      without a bar near the cutoff stores no signal, so later bars decide what is stored. */
  lemma LaterBarDecidesSignal() returns (e1: EventEvidence, e2: EventEvidence, t: int)
    ensures Accepted(e1) && Accepted(e2)
    ensures e1.postmarketStart == e2.postmarketStart && PreClose(e1) == PreClose(e2)
    ensures AgreeUpTo(e1.postmarketBars, e2.postmarketBars, t)
    ensures Features(e1).signal.timestamp.Some? && Features(e1).signal.timestamp.value < t
    ensures Features(e2).signal == NO_SIGNAL
  {
    var last, full, hour := Flat(-60, 100.0), Steady(110.0), FirstHour(110.0);
    e1, e2, t := WindowEvent(last, full), WindowEvent(last, hour), 3540;
    SteadyConfirms(110.0);
    FirstHourBars(110.0);
    WindowEventAccepted(last, full);
    WindowEventAccepted(last, hour);
    var s := StoredSignal(e1);
    ConfirmedSignal(s, 100.0, 0, full);
    UnconfirmedSilent(e2, 100.0, 0, hour);
  }

  // ------------------------------------------------------------------ inside the trigger minute

  /** The same minute, apart from how far the price ranged inside it. */
  ghost predicate Alike(a: Bar, b: Bar) {
    a.ts == b.ts && a.close == b.close && a.volume == b.volume
  }

  ghost predicate AllAlike(a: seq<Bar>, b: seq<Bar>) {
    |a| == |b| && forall i :: 0 <= i < |a| ==> Alike(a[i], b[i])
  }

  lemma {:induction false} CheckpointAlike(a: seq<Bar>, b: seq<Bar>, target: int)
    requires AllAlike(a, b)
    ensures Checkpoint(a, target).Some? <==> Checkpoint(b, target).Some?
    ensures Checkpoint(a, target).Some? ==>
              Alike(Checkpoint(a, target).value.0, Checkpoint(b, target).value.0)
  {
    if a != [] {
      CheckpointAlike(a[..|a| - 1], b[..|b| - 1], target);
    }
  }

  lemma {:induction false} VolumeAlike(a: seq<Bar>, b: seq<Bar>)
    requires AllAlike(a, b)
    ensures TotalVolume(Filter(a, HasVolume)) == TotalVolume(Filter(b, HasVolume))
  {
    if a != [] {
      VolumeAlike(a[1..], b[1..]);
      assert HasVolume(a[0]) == HasVolume(b[0]);
    }
  }

  lemma MissingAlike(p: real, start: int, a: seq<Bar>, b: seq<Bar>)
    requires p != 0.0 && AllAlike(a, b)
    ensures forall m :: HorizonReturn(p, start, a, m) == HorizonReturn(p, start, b, m)
    ensures MissingCheckpoints(p, start, a) == MissingCheckpoints(p, start, b)
  {
    forall m ensures HorizonReturn(p, start, a, m) == HorizonReturn(p, start, b, m) {
      CheckpointAlike(a, b, Target(start, m));
    }
    forall i | 0 <= i < |HORIZONS_MINUTES|
      ensures MissingAt(p, start, a)(HORIZONS_MINUTES[i]) == MissingAt(p, start, b)(HORIZONS_MINUTES[i])
    {
      assert HorizonReturn(p, start, a, HORIZONS_MINUTES[i]) == HorizonReturn(p, start, b, HORIZONS_MINUTES[i]);
    }
    FilterSame(HORIZONS_MINUTES, MissingAt(p, start, a), MissingAt(p, start, b));
  }

  lemma ClosesAlike(p: real, a: seq<Bar>, b: seq<Bar>)
    requires p != 0.0 && AllAlike(a, b)
    ensures Map(a, CloseReturn(p)) == Map(b, CloseReturn(p))
  {
    MapAt(a, CloseReturn(p));
    MapAt(b, CloseReturn(p));
  }

  lemma PathAlike(p: real, start: int, a: seq<Bar>, b: seq<Bar>, k: nat)
    requires p != 0.0 && AllAlike(a, b) && k + 1 < |a| && a[k + 1..] == b[k + 1..]
    ensures PathOf(p, start, a, k) == PathOf(p, start, b, k)
  {
    ClosesAlike(p, a, b);
  }

  lemma SignalsAlike(p: real, start: int, a: seq<Bar>, b: seq<Bar>, k: nat)
    requires Signals(p, start, a, k) && AllAlike(a, b)
    ensures Signals(p, start, b, k)
  {
    MissingAlike(p, start, a, b);
    ClosesAlike(p, a, b);
    VolumeAlike(a, b);
  }

  lemma SignalShared(p: real, start: int, a: seq<Bar>, b: seq<Bar>, k: nat) returns (path: Path, ts: int)
    requires Signals(p, start, a, k) && AllAlike(a, b) && a[k + 1..] == b[k + 1..]
    ensures path == PathOf(p, start, a, k) && ts == a[k].ts
    ensures Signals(p, start, b, k) && path == PathOf(p, start, b, k) && ts == b[k].ts
  {
    path, ts := PathOf(p, start, a, k), a[k].ts;
    SignalsAlike(p, start, a, b, k);
    PathAlike(p, start, a, b, k);
  }

  /** How far the trigger minute itself ranged never changes the verdict. */
  lemma TriggerRangeIgnored(p: real, start: int, a: seq<Bar>, b: seq<Bar>, k: nat)
    requires Signals(p, start, a, k) && AllAlike(a, b) && a[k + 1..] == b[k + 1..]
    ensures VerdictOf(p, start, b) == VerdictOf(p, start, a)
  {
    var path, ts := SignalShared(p, start, a, b, k);
    var v := ConfirmedVerdict(p, start, a, k, path, ts);
    var w := ConfirmedVerdict(p, start, b, k, path, ts);
    assert v == w;
  }

  lemma ConfirmedVerdict(p: real, start: int, study: seq<Bar>, k: nat, path: Path, ts: int) returns (v: Verdict)
    requires Signals(p, start, study, k) && path == PathOf(p, start, study, k) && ts == study[k].ts
    ensures v == VerdictOf(p, start, study) && v == Confirmed(path, ts + MINUTE)
  {
    SignalVerdict(p, start, study, k);
    v := VerdictOf(p, start, study);
  }

  lemma ReplacedBar(s: seq<Bar>, i: nat, b: Bar)
    requires i < |s| && b.ts == s[i].ts && DistinctTimes(s)
    ensures DistinctTimes(s[i := b])
    ensures forall x :: x in s[i := b] <==> x == b || (x in s && x.ts != b.ts)
  {
    var r := s[i := b];
    forall x ensures x in r <==> x == b || (x in s && x.ts != b.ts) {
      if x in r {
        var j :| 0 <= j < |r| && r[j] == x;
        if j != i { assert s[j] == x; }
      }
      if x == b { assert r[i] == x; }
      if x in s && x.ts != b.ts {
        var j :| 0 <= j < |s| && s[j] == x;
        assert r[j] == x;
      }
    }
  }

  /** An event whose trigger bar reports another high or low keeps its class, excursions,
      retracement and delay, as long as it is still accepted. */
  lemma TriggerBarRange(e: EventEvidence, i: nat, k: nat, high: real, low: real)
    requires Accepted(e) && Signals(PreClose(e), e.postmarketStart.value, StudyBars(e), k)
    requires i < |e.postmarketBars| && e.postmarketBars[i] == StudyBars(e)[k]
    requires Accepted(Reranged(e, i, high, low))
    ensures Stored(Features(Reranged(e, i, high, low))) == Stored(Features(e))
  {
    var changed := Reranged(e, i, high, low);
    RerangedStudy(e, i, k, high, low);
    SamePreClose(e, changed);
    assert StudyBars(changed)[k + 1..] == StudyBars(e)[k + 1..];
    TriggerRangeIgnored(PreClose(e), e.postmarketStart.value, StudyBars(e), StudyBars(changed), k);
    var before, _ := StoredVerdict(e);
    var after, _ := StoredVerdict(changed);
  }

  lemma SamePreClose(e: EventEvidence, other: EventEvidence)
    requires Accepted(e) && Accepted(other)
    requires e.regularBars == other.regularBars && e.regularEnd == other.regularEnd
    ensures PreClose(e) == PreClose(other)
  {
    assert PreCloseBar(e) == PreCloseBar(other);
  }

  function Reranged(e: EventEvidence, i: nat, high: real, low: real): EventEvidence
    requires i < |e.postmarketBars|
  {
    e.(postmarketBars := e.postmarketBars[i := e.postmarketBars[i].(high := high, low := low)])
  }

  lemma RerangedStudy(e: EventEvidence, i: nat, k: nat, high: real, low: real)
    requires Accepted(e) && i < |e.postmarketBars| && k < |StudyBars(e)| && e.postmarketBars[i] == StudyBars(e)[k]
    requires Accepted(Reranged(e, i, high, low))
    ensures StudyBars(Reranged(e, i, high, low)) == StudyBars(e)[k := StudyBars(e)[k].(high := high, low := low)]
  {
    var study, b := StudyBars(e), e.postmarketBars[i].(high := high, low := low);
    StudyContents(e);
    StudyContents(Reranged(e, i, high, low));
    AcceptedBars(e);
    assert study[k] in study;
    ReplacedBar(e.postmarketBars, i, b);
    ReplacedBar(study, k, b);
    AscendingUnique(StudyBars(Reranged(e, i, high, low)), study[k := b]);
  }

  // ------------------------------------------------------------------ order of the evidence

  ghost predicate Shuffled(e1: EventEvidence, e2: EventEvidence) {
    && e2 == e1.(regularBars := e2.regularBars, postmarketBars := e2.postmarketBars)
    && multiset(e1.regularBars) == multiset(e2.regularBars)
    && multiset(e1.postmarketBars) == multiset(e2.postmarketBars)
  }

  lemma ShuffledDeduplicated(a: seq<Bar>, b: seq<Bar>)
    requires multiset(a) == multiset(b)
    ensures |a| == |b| && (forall x :: x in a <==> x in b)
    ensures |Deduplicated(a)| == |a| <==> |Deduplicated(b)| == |b|
    ensures |Deduplicated(a)| == |a| ==> Deduplicated(a) == Deduplicated(b)
  {
    SameContents(a, b);
    DeduplicatedLossless(a);
    DeduplicatedLossless(b);
    if DistinctTimes(a) {
      DistinctTimesContents(a, b);
      DeduplicatedPermutation(a, b);
    }
    if DistinctTimes(b) {
      DistinctTimesContents(b, a);
    }
  }

  lemma SameBarsSame(e1: EventEvidence, e2: EventEvidence)
    requires HasBounds(e1) && HasBounds(e2)
    requires e1.postmarketStart == e2.postmarketStart && e1.regularEnd == e2.regularEnd
    requires Deduplicated(e1.regularBars) == Deduplicated(e2.regularBars)
    requires Deduplicated(e1.postmarketBars) == Deduplicated(e2.postmarketBars)
    ensures StudyBars(e1) == StudyBars(e2) && PreCloseBar(e1) == PreCloseBar(e2)
  {
  }

  lemma ShuffledBarsRejection(e1: EventEvidence, e2: EventEvidence)
    requires Shuffled(e1, e2) && HasBounds(e1)
    ensures BarsRejection(e1) == BarsRejection(e2)
    ensures BarsRejection(e1).None? ==> StudyBars(e1) == StudyBars(e2) && PreCloseBar(e1) == PreCloseBar(e2)
  {
    ShuffledDeduplicated(e1.regularBars, e2.regularBars);
    ShuffledDeduplicated(e1.postmarketBars, e2.postmarketBars);
    if |Deduplicated(e1.regularBars)| == |e1.regularBars| && |Deduplicated(e1.postmarketBars)| == |e1.postmarketBars| {
      SameBarsSame(e1, e2);
    }
  }

  lemma ShuffledDefects(e1: EventEvidence, e2: EventEvidence)
    requires Shuffled(e1, e2)
    ensures DefectRejection(e1).Some? <==> DefectRejection(e2).Some?
    ensures CoverageRejection(e1) == CoverageRejection(e2)
    ensures StudyCoverage(e1) == StudyCoverage(e2)
  {
    SameContents(e1.regularBars, e2.regularBars);
    SameContents(e1.postmarketBars, e2.postmarketBars);
    NoFirstDefect(e1.regularBars);
    NoFirstDefect(e2.regularBars);
    NoFirstDefect(e1.postmarketBars);
    NoFirstDefect(e2.postmarketBars);
    SameCoverage(e1, e2);
  }

  lemma SameCoverage(e1: EventEvidence, e2: EventEvidence)
    requires e1.postmarketStart == e2.postmarketStart
    requires forall b :: b in e1.postmarketBars <==> b in e2.postmarketBars
    ensures StudyCoverage(e1) == StudyCoverage(e2)
  {
    if e1.postmarketStart.Some? {
      var start := e1.postmarketStart.value;
      var t1 := set b | b in e1.postmarketBars && start <= b.ts < start + STUDY_MINUTES * MINUTE :: b.ts;
      var t2 := set b | b in e2.postmarketBars && start <= b.ts < start + STUDY_MINUTES * MINUTE :: b.ts;
      assert t1 == t2;
    }
  }

  /** The order of the bars can only change which defect a rejected event names; it changes
      nothing at all when coverage already rejected it or the first defects agree. */
  lemma ShuffleKeepsFeatures(e1: EventEvidence, e2: EventEvidence)
    requires Shuffled(e1, e2)
    ensures Features(e2) == Features(e1).(reason := Features(e2).reason)
    ensures Features(e1) == Features(e2) <==> CoverageRejection(e1).Some? || DefectRejection(e1) == DefectRejection(e2)
  {
    ShuffledDefects(e1, e2);
    if CoverageRejection(e1).None? && DefectRejection(e1).None? {
      ShuffledBarsRejection(e1, e2);
    }
  }

  /** All ill-formed bars of the phase have the same kind of defect. */
  ghost predicate OneKindOfDefect(bars: seq<Bar>) {
    forall a, b :: a in bars && b in bars && BarDefect(a).Some? && BarDefect(b).Some? ==> BarDefect(a) == BarDefect(b)
  }

  ghost predicate OrderProof(e: EventEvidence) {
    || CoverageRejection(e).Some?
    || if exists b :: b in e.regularBars && BarDefect(b).Some? then OneKindOfDefect(e.regularBars)
       else OneKindOfDefect(e.postmarketBars)
  }

  lemma {:induction false} FirstDefectKind(bars: seq<Bar>)
    ensures FirstDefect(bars).Some? ==> exists b :: b in bars && BarDefect(b) == FirstDefect(bars)
    ensures FirstDefect(bars).None? ==> forall b :: b in bars ==> BarDefect(b).None?
  {
    if bars != [] {
      FirstDefectKind(bars[1..]);
      assert bars == [bars[0]] + bars[1..];
      assert bars[0] in bars;
    }
  }

  lemma MovedToFront(bars: seq<Bar>, b: Bar) returns (front: seq<Bar>)
    requires b in bars && BarDefect(b).Some?
    ensures && multiset(front) == multiset(bars)
            && FirstDefect(front) == BarDefect(b)
  {
    var i :| 0 <= i < |bars| && bars[i] == b;
    front := [b] + Without(bars, i);
    WithoutContents(bars, i);
  }

  /** Exactly when no reordering of the bars can change the features. */
  lemma ShuffleExactly(e: EventEvidence)
    ensures (forall other :: Shuffled(e, other) ==> Features(other) == Features(e)) <==> OrderProof(e)
  {
    if OrderProof(e) {
      forall other | Shuffled(e, other) ensures Features(other) == Features(e) {
        OneKindOrderFree(e, other);
      }
    } else {
      var other := DefectWitness(e);
      ShuffleKeepsFeatures(e, other);
    }
  }

  lemma OneKindOrderFree(e: EventEvidence, other: EventEvidence)
    requires OrderProof(e) && Shuffled(e, other)
    ensures Features(other) == Features(e)
  {
    ShuffleKeepsFeatures(e, other);
    SameContents(e.regularBars, other.regularBars);
    SameContents(e.postmarketBars, other.postmarketBars);
    FirstDefectKind(e.regularBars);
    FirstDefectKind(other.regularBars);
    FirstDefectKind(e.postmarketBars);
    FirstDefectKind(other.postmarketBars);
  }

  lemma AnotherDefectFirst(bars: seq<Bar>) returns (front: seq<Bar>)
    requires !OneKindOfDefect(bars)
    ensures multiset(front) == multiset(bars)
    ensures && FirstDefect(front).Some?
            && FirstDefect(bars).Some?
            && FirstDefect(front) != FirstDefect(bars)
  {
    var a, b :| a in bars && b in bars && BarDefect(a).Some? && BarDefect(b).Some? && BarDefect(a) != BarDefect(b);
    FirstDefectKind(bars);
    front := MovedToFront(bars, if BarDefect(a) == FirstDefect(bars) then b else a);
  }

  lemma DefectWitness(e: EventEvidence) returns (other: EventEvidence)
    requires !OrderProof(e)
    ensures && Shuffled(e, other)
            && DefectRejection(other) != DefectRejection(e)
            && CoverageRejection(e).None?
  {
    FirstDefectKind(e.regularBars);
    if exists b :: b in e.regularBars && BarDefect(b).Some? {
      var front := AnotherDefectFirst(e.regularBars);
      other := e.(regularBars := front);
    } else {
      var front := AnotherDefectFirst(e.postmarketBars);
      other := e.(postmarketBars := front);
    }
  }

  /** One phase with two kinds of defect: which bar comes first decides the stored reason. */
  lemma TwoDefectsOrderDependent() returns (e: EventEvidence, other: EventEvidence)
    ensures !OrderProof(e) && Shuffled(e, other)
    ensures Features(e).reason == Some(InvalidBar(Regular, NonPositivePrice))
    ensures Features(other).reason == Some(InvalidBar(Regular, BadVolume))
  {
    var unpriced, untraded := Flat(-60, 0.0), Flat(-120, 100.0).(volume := None);
    e := WindowEvent(unpriced, []).(regularStart := Some(-120), regularBars := [unpriced, untraded]);
    other := e.(regularBars := [untraded, unpriced]);
    assert unpriced in e.regularBars && untraded in e.regularBars;
    assert Filter(e.flags, IsFatal()) == [];
  }
}
