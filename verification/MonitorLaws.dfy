/** What the monitor's log shows over every run: reports are not repeated without a reason,
    and backoff within a streak of failures only grows. */
module MonitorLaws {
  import opened Sequences
  import opened Monitor

  /** The two reports the daemon remembers having made. */
  datatype Report = Inactive | NoCandidates

  /** The date an entry reports, if it is such a report. */
  function ReportDate(r: Report, e: Entry): Option<int> {
    match (r, e)
    case (Inactive, InactiveRow(d)) => Some(d)
    case (NoCandidates, NoCandidatesRow(d)) => Some(d)
    case _ => None
  }

  /** The event that allows a report to be made again for the same date. */
  predicate Resets(r: Report, e: Entry) {
    match (r, e)
    case (Inactive, Woke(_, active)) => active
    case (NoCandidates, SuccessRow(_, n)) => n > 0
    case _ => false
  }

  function Memory(r: Report, s: State): Option<int> {
    if r.Inactive? then s.inactiveFor else s.noCandidatesFor
  }

  ghost predicate ResetBetween(r: Report, trace: seq<Entry>, i: int, j: int) {
    exists k :: 0 <= k < |trace| && i < k < j && Resets(r, trace[k])
  }

  /** Two reports for one date always have a reset between them. */
  ghost predicate Separated(r: Report, trace: seq<Entry>) {
    forall i, j ::
      0 <= i < j < |trace| && ReportDate(r, trace[i]).Some? && ReportDate(r, trace[i]) == ReportDate(r, trace[j]) ==>
        ResetBetween(r, trace, i, j)
  }

  /** A report not yet reset is remembered, or a later date is. */
  ghost predicate Remembered(r: Report, trace: seq<Entry>, memory: Option<int>, latest: int) {
    forall i :: 0 <= i < |trace| && ReportDate(r, trace[i]).Some? && !ResetBetween(r, trace, i, |trace|) ==>
      memory.Some? && ReportDate(r, trace[i]).value <= memory.value <= latest
  }

  lemma ResetKept(r: Report, trace: seq<Entry>, e: Entry, i: int, j: int)
    requires ResetBetween(r, trace, i, j)
    ensures ResetBetween(r, trace + [e], i, j)
  {
    var k :| 0 <= k < |trace| && i < k < j && Resets(r, trace[k]);
    assert (trace + [e])[k] == trace[k];
  }

  lemma UnresetBefore(r: Report, trace: seq<Entry>, e: Entry, i: int)
    requires !ResetBetween(r, trace + [e], i, |trace| + 1)
    ensures !ResetBetween(r, trace, i, |trace|)
    ensures i < |trace| ==> !Resets(r, e)
  {
    forall k | 0 <= k < |trace| && i < k < |trace| ensures !Resets(r, trace[k]) {
      assert (trace + [e])[k] == trace[k];
    }
    assert (trace + [e])[|trace|] == e;
  }

  /** An entry that is no report keeps both; a reset even forgets the memory. */
  lemma OtherEntry(r: Report, trace: seq<Entry>, e: Entry, memory: Option<int>, after: Option<int>, latest: int,
                   now: int)
    requires ReportDate(r, e).None? && Separated(r, trace) && Remembered(r, trace, memory, latest) && latest <= now
    requires after == memory || Resets(r, e)
    ensures && Separated(r, trace + [e])
            && Remembered(r, trace + [e], after, now)
  {
    var longer := trace + [e];
    forall i, j | 0 <= i < j < |longer| && ReportDate(r, longer[i]).Some?
        && ReportDate(r, longer[i]) == ReportDate(r, longer[j])
      ensures ResetBetween(r, longer, i, j)
    {
      assert longer[i] == trace[i] && longer[j] == trace[j];
      ResetKept(r, trace, e, i, j);
    }
    forall i | 0 <= i < |longer| && ReportDate(r, longer[i]).Some? && !ResetBetween(r, longer, i, |longer|)
      ensures && after.Some?
              && ReportDate(r, longer[i]).value <= after.value <= now
    {
      assert longer[i] == trace[i];
      UnresetBefore(r, trace, e, i);
    }
  }

  /** A report made because another date, or none, was remembered. */
  lemma ReportEntry(r: Report, trace: seq<Entry>, e: Entry, memory: Option<int>, latest: int)
    requires ReportDate(r, e).Some? && memory != ReportDate(r, e) && latest <= ReportDate(r, e).value
    requires Separated(r, trace) && Remembered(r, trace, memory, latest)
    ensures && Separated(r, trace + [e])
            && Remembered(r, trace + [e], ReportDate(r, e), ReportDate(r, e).value)
  {
    var longer := trace + [e];
    forall i, j | 0 <= i < j < |longer| && ReportDate(r, longer[i]).Some?
        && ReportDate(r, longer[i]) == ReportDate(r, longer[j])
      ensures ResetBetween(r, longer, i, j)
    {
      assert longer[i] == trace[i];
      if j < |trace| {
        assert longer[j] == trace[j];
        ResetKept(r, trace, e, i, j);
      } else {
        assert ResetBetween(r, trace, i, |trace|);
        ResetKept(r, trace, e, i, |trace|);
      }
    }
    forall i | 0 <= i < |longer| && ReportDate(r, longer[i]).Some? && !ResetBetween(r, longer, i, |longer|)
      ensures ReportDate(r, longer[i]).value <= ReportDate(r, e).value
    {
      if i < |trace| {
        assert longer[i] == trace[i];
        UnresetBefore(r, trace, e, i);
      }
    }
  }

  ghost predicate Kept(r: Report, s: State, latest: int) {
    Separated(r, s.trace) && (s.code.None? ==> Remembered(r, s.trace, Memory(r, s), latest))
  }

  /** The report made, or not made, because of what is remembered; then the date is remembered. */
  lemma MaybeReport(r: Report, trace: seq<Entry>, row: seq<Entry>, memory: Option<int>, latest: int, date: int)
    requires Separated(r, trace) && Remembered(r, trace, memory, latest) && latest <= date
    requires row
             == if memory == Some(date) then [] else [if r.Inactive? then InactiveRow(date) else NoCandidatesRow(date)]
    ensures && Separated(r, trace + row)
            && Remembered(r, trace + row, Some(date), date)
  {
    if row == [] {
      assert trace + row == trace;
    } else {
      ReportEntry(r, trace, row[0], memory, latest);
    }
  }

  lemma IdleKeeps(c: Config, cal: Calendar, r: Report, s: State, date: int, now: int, latest: int)
    requires s.code.None? && Kept(r, s, latest) && latest <= date
    ensures Kept(r, AfterIdle(c, cal, s, date, now), date)
  {
    var row := if s.inactiveFor == Some(date) then [] else [InactiveRow(date)];
    if r.Inactive? {
      MaybeReport(r, s.trace, row, s.inactiveFor, latest, date);
      OtherEntry(r, s.trace + row, Slept(IdleDelay(c, cal, now)), Some(date), Some(date), date, date);
    } else {
      if row == [] {
        assert s.trace + row == s.trace;
      } else {
        OtherEntry(r, s.trace, row[0], s.noCandidatesFor, s.noCandidatesFor, latest, date);
      }
      OtherEntry(r, s.trace + row, Slept(IdleDelay(c, cal, now)), s.noCandidatesFor, s.noCandidatesFor, date, date);
    }
  }

  /** The rows of a finished cycle, seen by either report. */
  lemma RowsKeep(r: Report, s: State, date: int, count: nat, latest: int) returns (memory: Option<int>)
    requires s.code.None? && Kept(r, s, latest) && latest <= date
    ensures && Separated(r, s.trace + CycleRows(s, date, count))
            && Remembered(r, s.trace + CycleRows(s, date, count), memory, date)
    ensures memory == if r.Inactive? then s.inactiveFor else if count > 0 then None else Some(date)
  {
    var rows := CycleRows(s, date, count);
    memory := if r.Inactive? then s.inactiveFor else if count > 0 then None else Some(date);
    if r.NoCandidates? && count == 0 {
      MaybeReport(r, s.trace, rows, s.noCandidatesFor, latest, date);
    } else if rows == [] {
      assert s.trace + rows == s.trace;
    } else {
      OtherEntry(r, s.trace, rows[0], Memory(r, s), memory, latest, date);
    }
  }

  lemma CycleKeeps(c: Config, r: Report, s: State, o: Options, date: int, count: nat, latest: int)
    requires s.code.None? && Kept(r, s, latest) && latest <= date
    ensures Kept(r, AfterCycle(c, s, o, date, count), date)
  {
    var memory := RowsKeep(r, s, date, count, latest);
    var rows := s.trace + CycleRows(s, date, count);
    OtherEntry(r, rows, CycleDone(count), memory, memory, date, date);
    if !o.once {
      OtherEntry(r, rows + [CycleDone(count)], Slept(if count == 0 then c.maxIdle else c.interval), memory, memory,
                 date, date);
    }
  }

  lemma FailureKeeps(c: Config, r: Report, s: State, o: Options, date: int, transient: bool, latest: int)
    requires s.code.None? && Kept(r, s, latest) && latest <= date
    ensures Kept(r, AfterFailure(c, s, o, date, transient), date)
  {
    OtherEntry(r, s.trace, DegradedRow(date), Memory(r, s), Memory(r, s), latest, date);
    OtherEntry(r, s.trace + [DegradedRow(date)], BackedOff(BackoffDelay(c, s.failures + 1)), Memory(r, s), Memory(r, s),
               date, date);
  }

  lemma WakingKeeps(c: Config, cal: Calendar, o: Options, r: Report, s: State, input: Input, latest: int)
    requires s.code.None? && Kept(r, s, latest) && latest <= MarketDate(o, input.now)
    ensures Kept(r, AfterWaking(c, cal, o, s, input), MarketDate(o, input.now))
  {
    var date, awake := MarketDate(o, input.now), Awake(c, cal, o, input.now);
    var woken := s.(trace := s.trace + [Woke(date, awake)]);
    if !awake {
      OtherEntry(r, s.trace, Woke(date, awake), Memory(r, s), Memory(r, s), latest, date);
      IdleKeeps(c, cal, r, woken, date, input.now, date);
    } else {
      var running := woken.(inactiveFor := None);
      OtherEntry(r, s.trace, Woke(date, awake), Memory(r, s), Memory(r, running), latest, date);
      match input.cycle
      case Candidates(n) => CycleKeeps(c, r, running, o, date, n, date);
      case Failure(transient) => FailureKeeps(c, r, running, o, date, transient, date);
    }
  }

  ghost predicate MonotoneClock(inputs: seq<Input>) {
    forall i, j :: 0 <= i < j < |inputs| ==> inputs[i].now <= inputs[j].now
  }

  lemma {:induction false} RunKeeps(c: Config, cal: Calendar, o: Options, r: Report, inputs: seq<Input>, latest: int)
    requires MonotoneClock(inputs)
    requires inputs != [] ==> MarketDate(o, inputs[|inputs| - 1].now) <= latest
    ensures Kept(r, Ran(c, cal, o, inputs), latest)
  {
    if inputs != [] {
      var n := |inputs| - 1;
      var date := MarketDate(o, inputs[n].now);
      var before := Ran(c, cal, o, inputs[..n]);
      RunKeeps(c, cal, o, r, inputs[..n], date);
      if before.code.None? && !inputs[n].stop {
        WakingKeeps(c, cal, o, r, before, inputs[n], date);
      }
      var s := Ran(c, cal, o, inputs);
      assert Remembered(r, s.trace, Memory(r, s), date) ==> Remembered(r, s.trace, Memory(r, s), latest);
    }
  }

  /** With a clock that never runs backwards, a date's inactive row repeats only after an
      active iteration, and its no-candidates row only after a cycle that found some. */
  lemma ReportsNotRepeated(c: Config, cal: Calendar, o: Options, inputs: seq<Input>)
    requires MonotoneClock(inputs)
    ensures Separated(Inactive, Ran(c, cal, o, inputs).trace)
    ensures Separated(NoCandidates, Ran(c, cal, o, inputs).trace)
  {
    var latest := if inputs == [] then 0 else MarketDate(o, inputs[|inputs| - 1].now);
    RunKeeps(c, cal, o, Inactive, inputs, latest);
    RunKeeps(c, cal, o, NoCandidates, inputs, latest);
  }

  // ------------------------------------------------------------------ backoff

  lemma {:induction false} DoublingsGrow(a: nat, b: nat)
    requires a <= b
    ensures Doublings(a) <= Doublings(b)
  {
    if a < b {
      DoublingsGrow(a, b - 1);
    }
  }

  lemma ScaledGrow(k: int, a: int, b: int)
    requires k > 0 && a <= b
    ensures k * a <= k * b
  {
  }

  /** Longer streaks wait at least as long; every wait is positive and capped. */
  lemma BackoffGrows(c: Config, a: nat, b: nat)
    requires ValidConfig(c) && 1 <= a <= b
    ensures 0 < BackoffDelay(c, a) <= BackoffDelay(c, b) <= c.maxBackoff
  {
    var x, y := if a - 1 < 8 then a - 1 else 8, if b - 1 < 8 then b - 1 else 8;
    DoublingsGrow(x, y);
    ScaledGrow(c.interval, Doublings(x), Doublings(y));
    ScaledGrow(c.interval, 1, Doublings(x));
  }

  ghost predicate CycleBetween(trace: seq<Entry>, i: int, j: int) {
    exists k :: 0 <= k < |trace| && i < k < j && trace[k].CycleDone?
  }

  /** Waits are capped, and never shrink unless a cycle finished in between. */
  ghost predicate BackoffOrdered(c: Config, trace: seq<Entry>) {
    && (forall i :: 0 <= i < |trace| && trace[i].BackedOff? ==> 0 < trace[i].delay <= c.maxBackoff)
    && (forall i, j ::
          0 <= i < j < |trace| && trace[i].BackedOff? && trace[j].BackedOff? && !CycleBetween(trace, i, j) ==>
            trace[i].delay <= trace[j].delay)
  }

  ghost predicate StreakBound(c: Config, trace: seq<Entry>, failures: nat) {
    forall i :: 0 <= i < |trace| && trace[i].BackedOff? && !CycleBetween(trace, i, |trace|) ==>
      failures >= 1 && trace[i].delay <= BackoffDelay(c, failures)
  }

  lemma CycleKept(trace: seq<Entry>, e: Entry, i: int, j: int)
    requires CycleBetween(trace, i, j)
    ensures CycleBetween(trace + [e], i, j)
  {
    var k :| 0 <= k < |trace| && i < k < j && trace[k].CycleDone?;
    assert (trace + [e])[k] == trace[k];
  }

  lemma PlainEntry(c: Config, trace: seq<Entry>, e: Entry, failures: nat)
    requires BackoffOrdered(c, trace) && StreakBound(c, trace, failures) && !e.BackedOff?
    ensures BackoffOrdered(c, trace + [e])
    ensures StreakBound(c, trace + [e], if e.CycleDone? then 0 else failures)
  {
    var longer := trace + [e];
    forall i, j | 0 <= i < j < |longer| && longer[i].BackedOff? && longer[j].BackedOff? && !CycleBetween(longer, i, j)
      ensures longer[i].delay <= longer[j].delay
    {
      assert longer[i] == trace[i] && longer[j] == trace[j];
      assert !CycleBetween(trace, i, j) by {
        if CycleBetween(trace, i, j) {
          CycleKept(trace, e, i, j);
        }
      }
    }
    forall i | 0 <= i < |longer| && longer[i].BackedOff? && !CycleBetween(longer, i, |longer|)
      ensures && !e.CycleDone?
              && failures >= 1
              && longer[i].delay <= BackoffDelay(c, failures)
    {
      assert longer[i] == trace[i] && longer[|trace|] == e;
      assert !CycleBetween(trace, i, |trace|) by {
        if CycleBetween(trace, i, |trace|) {
          CycleKept(trace, e, i, |trace|);
        }
      }
    }
  }

  lemma BackoffEntry(c: Config, trace: seq<Entry>, failures: nat)
    requires ValidConfig(c) && BackoffOrdered(c, trace) && StreakBound(c, trace, failures)
    ensures var longer := trace + [BackedOff(BackoffDelay(c, failures + 1))];
            BackoffOrdered(c, longer) && StreakBound(c, longer, failures + 1)
  {
    var e := BackedOff(BackoffDelay(c, failures + 1));
    var longer := trace + [e];
    BackoffGrows(c, failures + 1, failures + 1);
    forall i | 0 <= i < |trace| && trace[i].BackedOff? && !CycleBetween(longer, i, |trace|)
      ensures trace[i].delay <= BackoffDelay(c, failures + 1)
    {
      assert !CycleBetween(trace, i, |trace|) by {
        if CycleBetween(trace, i, |trace|) {
          CycleKept(trace, e, i, |trace|);
        }
      }
      BackoffGrows(c, failures, failures + 1);
    }
    forall i, j | 0 <= i < j < |longer| && longer[i].BackedOff? && longer[j].BackedOff? && !CycleBetween(longer, i, j)
      ensures longer[i].delay <= longer[j].delay
    {
      assert longer[i] == trace[i];
      if j < |trace| {
        assert longer[j] == trace[j];
        assert !CycleBetween(trace, i, j) by {
          if CycleBetween(trace, i, j) {
            CycleKept(trace, e, i, j);
          }
        }
      }
    }
    forall i | 0 <= i < |longer| && longer[i].BackedOff? && !CycleBetween(longer, i, |longer|)
      ensures longer[i].delay <= BackoffDelay(c, failures + 1)
    {
      if i < |trace| {
        assert longer[i] == trace[i];
        assert !CycleBetween(longer, i, |trace|);
      }
    }
  }

  ghost predicate Paced(c: Config, s: State) {
    BackoffOrdered(c, s.trace) && StreakBound(c, s.trace, s.failures)
  }

  lemma IdlePaced(c: Config, cal: Calendar, s: State, date: int, now: int)
    requires Paced(c, s)
    ensures Paced(c, AfterIdle(c, cal, s, date, now))
  {
    var row := if s.inactiveFor == Some(date) then [] else [InactiveRow(date)];
    if row == [] {
      assert s.trace + row == s.trace;
    } else {
      PlainEntry(c, s.trace, row[0], s.failures);
    }
    PlainEntry(c, s.trace + row, Slept(IdleDelay(c, cal, now)), s.failures);
  }

  lemma CyclePaced(c: Config, s: State, o: Options, date: int, count: nat)
    requires Paced(c, s)
    ensures Paced(c, AfterCycle(c, s, o, date, count))
  {
    var rows := CycleRows(s, date, count);
    if rows == [] {
      assert s.trace + rows == s.trace;
    } else {
      PlainEntry(c, s.trace, rows[0], s.failures);
    }
    PlainEntry(c, s.trace + rows, CycleDone(count), s.failures);
    PlainEntry(c, s.trace + rows + [CycleDone(count)], Slept(if count == 0 then c.maxIdle else c.interval), 0);
  }

  lemma StreakGrows(c: Config, trace: seq<Entry>, failures: nat)
    requires ValidConfig(c) && StreakBound(c, trace, failures)
    ensures StreakBound(c, trace, failures + 1)
  {
    if failures >= 1 {
      BackoffGrows(c, failures, failures + 1);
    }
  }

  lemma FailurePaced(c: Config, s: State, o: Options, date: int, transient: bool)
    requires ValidConfig(c) && Paced(c, s)
    ensures Paced(c, AfterFailure(c, s, o, date, transient))
  {
    PlainEntry(c, s.trace, DegradedRow(date), s.failures);
    StreakGrows(c, s.trace + [DegradedRow(date)], s.failures);
    BackoffEntry(c, s.trace + [DegradedRow(date)], s.failures);
  }

  /** Over every run: within a streak of failures, waits never shrink and never pass the cap. */
  lemma {:induction false} BackoffNeverShrinks(c: Config, cal: Calendar, o: Options, inputs: seq<Input>)
    requires ValidConfig(c)
    ensures Paced(c, Ran(c, cal, o, inputs))
  {
    if inputs != [] {
      var n := |inputs| - 1;
      var s, input := Ran(c, cal, o, inputs[..n]), inputs[n];
      BackoffNeverShrinks(c, cal, o, inputs[..n]);
      if s.code.None? && !input.stop {
        var date, awake := MarketDate(o, input.now), Awake(c, cal, o, input.now);
        PlainEntry(c, s.trace, Woke(date, awake), s.failures);
        var woken := s.(trace := s.trace + [Woke(date, awake)]);
        if !awake {
          IdlePaced(c, cal, woken, date, input.now);
        } else {
          var running := woken.(inactiveFor := None);
          match input.cycle
          case Candidates(k) => CyclePaced(c, running, o, date, k);
          case Failure(transient) => FailurePaced(c, running, o, date, transient);
        }
      }
    }
  }

  // ------------------------------------------------------------------ how a run ends

  /** What ends a long-running daemon: a stop, or a failure that is not transient while awake. */
  predicate Ends(c: Config, cal: Calendar, o: Options, input: Input) {
    input.stop || (Awake(c, cal, o, input.now) && input.cycle == Failure(false))
  }

  /** It survives everything else, however many transient failures: it is still running
      exactly when nothing so far ended it. */
  lemma {:induction false} RunsUntilEnded(c: Config, cal: Calendar, o: Options, inputs: seq<Input>)
    requires !o.once
    ensures Ran(c, cal, o, inputs).code.None? <==> forall k :: 0 <= k < |inputs| ==> !Ends(c, cal, o, inputs[k])
  {
    if inputs != [] {
      var n := |inputs| - 1;
      RunsUntilEnded(c, cal, o, inputs[..n]);
      assert inputs == inputs[..n] + [inputs[n]];
    }
  }

  // ------------------------------------------------------------------ how long each iteration waits

  /** The wait after so many failures in a row: the interval, doubled up to eight times, capped. */
  function WaitAfter(c: Config, streak: nat): int
    decreases streak
  {
    if streak <= 1 then (if c.interval < c.maxBackoff then c.interval else c.maxBackoff)
    else if streak > 9 then WaitAfter(c, 9)
    else if 2 * WaitAfter(c, streak - 1) < c.maxBackoff then 2 * WaitAfter(c, streak - 1)
    else c.maxBackoff
  }

  /** The failures since the last cycle that finished; asleep iterations do not count. */
  function FailureStreak(c: Config, cal: Calendar, o: Options, inputs: seq<Input>): nat {
    if inputs == [] then 0
    else
      var rest, last := FailureStreak(c, cal, o, inputs[..|inputs| - 1]), inputs[|inputs| - 1];
      if !(o.once || Active(c, cal, last.now)) then rest
      else if last.cycle.Failure? then rest + 1
      else 0
  }

  lemma {:induction false} WaitDoubles(c: Config, streak: nat)
    requires ValidConfig(c) && 1 <= streak <= 9
    ensures WaitAfter(c, streak) == BackoffDelay(c, streak) && WaitAfter(c, streak) >= 0
  {
    if streak > 1 {
      WaitDoubles(c, streak - 1);
      assert Doublings(streak - 1) == 2 * Doublings(streak - 2);
      assert c.interval * (2 * Doublings(streak - 2)) == 2 * (c.interval * Doublings(streak - 2));
    }
    BackoffGrows(c, streak, streak);
  }

  lemma WaitMeaning(c: Config, streak: nat)
    requires ValidConfig(c) && streak >= 1
    ensures WaitAfter(c, streak) == BackoffDelay(c, streak)
  {
    WaitDoubles(c, if streak > 9 then 9 else streak);
  }

  lemma {:induction false} FailuresCounted(c: Config, cal: Calendar, o: Options, inputs: seq<Input>)
    requires Ran(c, cal, o, inputs).code.None?
    ensures Ran(c, cal, o, inputs).failures == FailureStreak(c, cal, o, inputs)
  {
    if inputs != [] {
      FailuresCounted(c, cal, o, inputs[..|inputs| - 1]);
    }
  }

  /** The wait that ends an iteration. */
  ghost predicate WaitsFor(c: Config, cal: Calendar, input: Input, streak: nat, e: Entry) {
    if !Active(c, cal, input.now) then
      && e.Slept? && 0 < e.delay <= c.maxIdle
      && (forall t :: input.now <= t < input.now + e.delay ==> !Active(c, cal, t))
      && (e.delay < c.maxIdle ==> Active(c, cal, input.now + e.delay))
    else
      match input.cycle
      case Candidates(n) => e == Slept(if n == 0 then c.maxIdle else c.interval)
      case Failure(_) => e == BackedOff(WaitAfter(c, streak))
  }

  /** Every iteration that leaves the daemon running ends with its wait: an idle sleep that misses
      nothing, the longest idle sleep after an empty cycle, the interval after a cycle that found
      some, or the backoff of the streak of failures it belongs to. */
  lemma IterationWaits(c: Config, cal: Calendar, o: Options, inputs: seq<Input>)
    requires ValidConfig(c) && ValidCalendar(cal) && inputs != [] && Ran(c, cal, o, inputs).code.None?
    ensures var trace := Ran(c, cal, o, inputs).trace;
            && trace != []
            && WaitsFor(c, cal, inputs[|inputs| - 1], FailureStreak(c, cal, o, inputs), trace[|trace| - 1])
  {
    var front, last := inputs[..|inputs| - 1], inputs[|inputs| - 1];
    FailuresCounted(c, cal, o, front);
    var s := Ran(c, cal, o, front);
    if !Active(c, cal, last.now) {
      SleepMissesNothing(c, cal, last.now);
    } else if last.cycle.Failure? {
      WaitMeaning(c, s.failures + 1);
    }
  }

  // ------------------------------------------------------------------ which date an iteration reports

  /** Whether a log row speaks of a date; waits and finished cycles speak of none. */
  predicate Reports(e: Entry, date: int) {
    match e
    case Woke(d, _) => d == date
    case InactiveRow(d) => d == date
    case NoCandidatesRow(d) => d == date
    case SuccessRow(d, _) => d == date
    case DegradedRow(d) => d == date
    case _ => true
  }

  predicate AllReport(rows: seq<Entry>, date: int) {
    forall i :: 0 <= i < |rows| ==> Reports(rows[i], date)
  }

  /** The log only grows, and what an iteration adds speaks of the forced date, or without one of
      the day it woke in. */
  lemma IterationDated(c: Config, cal: Calendar, o: Options, s: State, input: Input, date: int)
    requires if o.forcedDate.Some? then Some(date) == o.forcedDate else date * DAY <= input.now < (date + 1) * DAY
    ensures s.trace <= Iterated(c, cal, o, s, input).trace
    ensures AllReport(Iterated(c, cal, o, s, input).trace[|s.trace|..], date)
  {
    assert MarketDate(o, input.now) == date;
  }

  /** The monitor is awake on session days from the start to the end of its window, both included. */
  lemma AwakeExactly(c: Config, cal: Calendar, day: int, time: int)
    requires 0 <= time < DAY
    ensures Active(c, cal, day * DAY + time) <==> cal.isSession(day) && c.windowStart <= time <= c.windowEnd
  {
    assert (day * DAY + time) / DAY == day;
  }
}
