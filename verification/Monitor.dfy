/** The live monitor: when it is awake, how long it may sleep, and a loop whose memory keeps
    its log free of repeats. Time is one clock in microseconds; days start at its multiples
    of `DAY`. */
module Monitor {
  import opened Sequences

  const DAY: int := 86_400_000_000

  datatype Config = Config(interval: int, windowStart: int, windowEnd: int, maxIdle: int, maxBackoff: int)

  /** What the configuration checks when it is built. */
  predicate ValidConfig(c: Config) {
    && c.interval > 0 && c.maxIdle > 0 && c.maxBackoff > 0
    && 0 <= c.windowStart < c.windowEnd < DAY
  }

  /** The exchange calendar; `ahead` names some session after each day. */
  datatype Calendar = Calendar(isSession: int -> bool, ahead: int -> int)

  ghost predicate ValidCalendar(cal: Calendar) {
    forall d :: cal.ahead(d) > d && cal.isSession(cal.ahead(d))
  }

  function DayOf(now: int): int {
    now / DAY
  }

  function TimeOf(now: int): int {
    now % DAY
  }

  /** Sessions only, both ends of the window included. */
  predicate Active(c: Config, cal: Calendar, now: int) {
    cal.isSession(DayOf(now)) && c.windowStart <= TimeOf(now) <= c.windowEnd
  }

  /** The first session from `day` on, no later than `limit`. */
  function FirstSession(cal: Calendar, day: int, limit: int): int
    decreases limit - day
  {
    if cal.isSession(day) || day >= limit then day else FirstSession(cal, day + 1, limit)
  }

  function Boundary(c: Config, cal: Calendar, now: int): int {
    var day := DayOf(now);
    if cal.isSession(day) && TimeOf(now) < c.windowStart then day * DAY + c.windowStart
    else FirstSession(cal, day + 1, cal.ahead(day)) * DAY + c.windowStart
  }

  function IdleDelay(c: Config, cal: Calendar, now: int): int {
    var gap := Boundary(c, cal, now) - now;
    var bounded := if gap < c.maxIdle then gap else c.maxIdle;
    if bounded < 0 then 0 else bounded
  }

  method SecondsToNextBoundary(c: Config, cal: Calendar, now: int) returns (delay: int)
    requires ValidCalendar(cal)
    ensures delay == IdleDelay(c, cal, now)
  {
    var day := DayOf(now);
    var boundary;
    if cal.isSession(day) && TimeOf(now) < c.windowStart {
      boundary := day * DAY + c.windowStart;
    } else {
      ghost var limit := cal.ahead(day);
      ghost var first := FirstSession(cal, day + 1, limit);
      day := day + 1;
      while !cal.isSession(day)
        invariant day <= limit && cal.isSession(limit)
        invariant FirstSession(cal, day, limit) == first
        decreases limit - day
      {
        day := day + 1;
      }
      boundary := day * DAY + c.windowStart;
    }
    delay := boundary - now;
    if c.maxIdle <= delay {
      delay := c.maxIdle;
    }
    if delay < 0 {
      delay := 0;
    }
  }

  lemma {:induction false} FirstSessionFound(cal: Calendar, day: int, limit: int)
    requires day <= limit && cal.isSession(limit)
    ensures && day <= FirstSession(cal, day, limit)
            && cal.isSession(FirstSession(cal, day, limit))
    ensures forall d :: day <= d < FirstSession(cal, day, limit) ==> !cal.isSession(d)
    decreases limit - day
  {
    if !cal.isSession(day) {
      FirstSessionFound(cal, day + 1, limit);
    }
  }

  /** The boundary is the next active instant after an inactive one: it is active, and
      nothing between is. */
  lemma BoundaryIsNextActive(c: Config, cal: Calendar, now: int)
    requires ValidConfig(c) && ValidCalendar(cal) && !Active(c, cal, now)
    ensures && now < Boundary(c, cal, now)
            && Active(c, cal, Boundary(c, cal, now))
    ensures forall t :: now <= t < Boundary(c, cal, now) ==> !Active(c, cal, t)
  {
    var day := DayOf(now);
    var target := day;
    if !(cal.isSession(day) && TimeOf(now) < c.windowStart) {
      FirstSessionFound(cal, day + 1, cal.ahead(day));
      target := FirstSession(cal, day + 1, cal.ahead(day));
    }
    forall t | now <= t < Boundary(c, cal, now) ensures !Active(c, cal, t) {
      InactiveBefore(c, cal, now, target, t);
    }
  }

  lemma InactiveBefore(c: Config, cal: Calendar, now: int, target: int, t: int)
    requires ValidConfig(c) && !Active(c, cal, now) && now <= t < target * DAY + c.windowStart
    requires target >= DayOf(now)
    requires target > DayOf(now) ==>
               && (!cal.isSession(DayOf(now)) || TimeOf(now) >= c.windowStart)
               && forall d :: DayOf(now) < d < target ==> !cal.isSession(d)
    ensures !Active(c, cal, t)
  {
    assert t == DayOf(t) * DAY + TimeOf(t) && now == DayOf(now) * DAY + TimeOf(now);
    if DayOf(t) == target {
      assert TimeOf(t) < c.windowStart;
    } else if DayOf(t) == DayOf(now) {
      assert TimeOf(t) >= TimeOf(now);
    } else {
      assert DayOf(now) < DayOf(t) < target;
    }
  }

  /** An idle sleep is never empty and never runs over the start of a window. */
  lemma SleepMissesNothing(c: Config, cal: Calendar, now: int)
    requires ValidConfig(c) && ValidCalendar(cal) && !Active(c, cal, now)
    ensures 0 < IdleDelay(c, cal, now) <= c.maxIdle
    ensures forall t :: now <= t < now + IdleDelay(c, cal, now) ==> !Active(c, cal, t)
    ensures IdleDelay(c, cal, now) < c.maxIdle ==> Active(c, cal, now + IdleDelay(c, cal, now))
  {
    BoundaryIsNextActive(c, cal, now);
  }

  // ------------------------------------------------------------------ the loop

  /** What one market cycle comes back with. */
  datatype Cycle = Candidates(count: nat) | Failure(transient: bool)

  datatype Input = Input(stop: bool, now: int, cycle: Cycle)

  datatype Options = Options(once: bool, forcedDate: Option<int>)

  datatype Entry =
    | Woke(date: int, active: bool)
    | InactiveRow(date: int) | NoCandidatesRow(date: int)
    | SuccessRow(date: int, candidates: nat) | DegradedRow(date: int)
    | CycleDone(candidates: nat) | Slept(delay: int) | BackedOff(delay: int)

  datatype State = State(failures: nat, inactiveFor: Option<int>, noCandidatesFor: Option<int>, trace: seq<Entry>,
                         code: Option<int>)

  const IDLE: State := State(0, None, None, [], None)

  function Doublings(n: nat): (r: int)
    ensures r >= 1
  {
    if n == 0 then 1 else 2 * Doublings(n - 1)
  }

  function BackoffDelay(c: Config, failures: nat): int
    requires failures >= 1
  {
    var exponent := if failures - 1 < 8 then failures - 1 else 8;
    var window := c.interval * Doublings(exponent);
    if window < c.maxBackoff then window else c.maxBackoff
  }

  function MarketDate(o: Options, now: int): int {
    if o.forcedDate.Some? then o.forcedDate.value else DayOf(now)
  }

  predicate Awake(c: Config, cal: Calendar, o: Options, now: int) {
    o.once || Active(c, cal, now)
  }

  function AfterIdle(c: Config, cal: Calendar, s: State, date: int, now: int): State {
    var row := if s.inactiveFor == Some(date) then [] else [InactiveRow(date)];
    s.(inactiveFor := Some(date), trace := s.trace + row + [Slept(IdleDelay(c, cal, now))])
  }

  /** Rows a finished cycle records; an empty one is reported once per date. */
  function CycleRows(s: State, date: int, count: nat): seq<Entry> {
    if count > 0 then [SuccessRow(date, count)]
    else if s.noCandidatesFor == Some(date) then []
    else [NoCandidatesRow(date)]
  }

  function AfterCycle(c: Config, s: State, o: Options, date: int, count: nat): State {
    var done := s.(failures := 0, trace := s.trace + CycleRows(s, date, count) + [CycleDone(count)]);
    if o.once then done.(code := Some(0))
    else if count == 0 then done.(noCandidatesFor := Some(date), trace := done.trace + [Slept(c.maxIdle)])
    else done.(noCandidatesFor := None, trace := done.trace + [Slept(c.interval)])
  }

  function AfterFailure(c: Config, s: State, o: Options, date: int, transient: bool): State {
    var logged := s.(trace := s.trace + [DegradedRow(date)]);
    if !transient then logged.(code := Some(1))
    else if o.once then logged.(failures := s.failures + 1, code := Some(1))
    else logged.(failures := s.failures + 1, trace := logged.trace + [BackedOff(BackoffDelay(c, s.failures + 1))])
  }

  function AfterWaking(c: Config, cal: Calendar, o: Options, s: State, input: Input): State {
    var date := MarketDate(o, input.now);
    var awake := Awake(c, cal, o, input.now);
    var woken := s.(trace := s.trace + [Woke(date, awake)]);
    if !awake then AfterIdle(c, cal, woken, date, input.now)
    else
      var running := woken.(inactiveFor := None);
      match input.cycle
      case Candidates(n) => AfterCycle(c, running, o, date, n)
      case Failure(transient) => AfterFailure(c, running, o, date, transient)
  }

  function Iterated(c: Config, cal: Calendar, o: Options, s: State, input: Input): State {
    if s.code.Some? then s
    else if input.stop then s.(code := Some(0))
    else AfterWaking(c, cal, o, s, input)
  }

  function Ran(c: Config, cal: Calendar, o: Options, inputs: seq<Input>): State {
    if inputs == [] then IDLE
    else Iterated(c, cal, o, Ran(c, cal, o, inputs[..|inputs| - 1]), inputs[|inputs| - 1])
  }

  class Daemon {
    const config: Config
    const calendar: Calendar
    const options: Options
    var failures: nat
    var inactiveFor: Option<int>
    var noCandidatesFor: Option<int>
    var trace: seq<Entry>
    var code: Option<int>

    constructor (config: Config, calendar: Calendar, options: Options)
      ensures && Contents() == IDLE
              && this.config == config
              && this.calendar == calendar
              && this.options == options
    {
      this.config, this.calendar, this.options := config, calendar, options;
      failures, inactiveFor, noCandidatesFor, trace, code := 0, None, None, [], None;
    }

    function Contents(): State
      reads this
    {
      State(failures, inactiveFor, noCandidatesFor, trace, code)
    }

    method RunCycle(date: int, count: nat)
      requires code.None?
      modifies this
      ensures Contents() == AfterCycle(config, old(Contents()), options, date, count)
    {
      if count == 0 {
        if noCandidatesFor != Some(date) {
          trace := trace + [NoCandidatesRow(date)];
        }
      } else {
        trace := trace + [SuccessRow(date, count)];
      }
      failures := 0;
      trace := trace + [CycleDone(count)];
      if options.once {
        code := Some(0);
        return;
      }
      if count == 0 {
        noCandidatesFor := Some(date);
        trace := trace + [Slept(config.maxIdle)];
        return;
      }
      noCandidatesFor := None;
      trace := trace + [Slept(config.interval)];
    }

    method HandleFailure(date: int, transient: bool)
      requires code.None?
      modifies this
      ensures Contents() == AfterFailure(config, old(Contents()), options, date, transient)
    {
      trace := trace + [DegradedRow(date)];
      if !transient {
        code := Some(1);
        return;
      }
      failures := failures + 1;
      if options.once {
        code := Some(1);
        return;
      }
      trace := trace + [BackedOff(BackoffDelay(config, failures))];
    }

    method Iterate(input: Input)
      requires ValidCalendar(calendar) && code.None? && !input.stop
      modifies this
      ensures Contents() == AfterWaking(config, calendar, options, old(Contents()), input)
    {
      var date := MarketDate(options, input.now);
      var awake := Awake(config, calendar, options, input.now);
      trace := trace + [Woke(date, awake)];
      if !awake {
        if inactiveFor != Some(date) {
          trace := trace + [InactiveRow(date)];
          inactiveFor := Some(date);
        }
        var delay := SecondsToNextBoundary(config, calendar, input.now);
        trace := trace + [Slept(delay)];
        return;
      }
      inactiveFor := None;
      match input.cycle
      case Candidates(n) => RunCycle(date, n);
      case Failure(transient) => HandleFailure(date, transient);
    }

    /** Runs until told to stop, until a code is returned, or until no input is left. */
    method Run(inputs: seq<Input>)
      requires ValidCalendar(calendar) && Contents() == IDLE
      modifies this
      ensures Contents() == Ran(config, calendar, options, inputs)
    {
      for i := 0 to |inputs|
        invariant Contents() == Ran(config, calendar, options, inputs[..i])
      {
        assert inputs[..i + 1][..i] == inputs[..i];
        if code.None? {
          if inputs[i].stop {
            code := Some(0);
          } else {
            Iterate(inputs[i]);
          }
        }
      }
      assert inputs[..|inputs|] == inputs;
    }
  }
}
