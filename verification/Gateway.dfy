/** The retrying gateway client as a protocol: any number of requests share a semaphore, make
    bounded attempts, and back off without holding a permit. */
module Gateway {
  import opened Sequences

  datatype Config = Config(maxConcurrency: nat, maxAttempts: int, backoff: real, maxBackoff: real)

  /** What one attempt came back with. Capacity, timeout and availability errors are transient. */
  datatype Reply = Success(value: int) | Transient(error: int) | Permanent(error: int)

  /** How a request ends; `Exhausted` is the assertion after a loop that never ran. */
  datatype Ending = Returned(value: int) | Raised(reply: Reply) | Exhausted

  // ------------------------------------------------------------------ backoff

  function PowerOfTwo(n: nat): (r: real)
    ensures r >= 1.0
  {
    if n == 0 then 1.0 else 2.0 * PowerOfTwo(n - 1)
  }

  function Window(c: Config, attempt: int): real
    requires attempt >= 1
  {
    c.backoff * PowerOfTwo(attempt - 1)
  }

  function Ceiling(c: Config, attempt: int): real
    requires attempt >= 1
  {
    Min2(Window(c, attempt), c.maxBackoff)
  }

  lemma ProductMonotone(x: real, a: real, b: real)
    requires x >= 0.0 && a <= b
    ensures x * a <= x * b
  {
    assert x * (b - a) >= 0.0;
  }

  lemma ScaledDown(x: real, draw: real)
    requires x >= 0.0 && 0.0 <= draw <= 1.0
    ensures 0.0 <= x * draw
    ensures x * draw <= x
  {
    assert x * (1.0 - draw) >= 0.0;
  }

  lemma WindowDoubles(c: Config, attempt: int)
    requires attempt >= 1 && c.backoff >= 0.0
    ensures 0.0 <= Window(c, attempt)
    ensures Window(c, attempt) <= Window(c, attempt + 1)
  {
    ProductMonotone(c.backoff, 0.0, PowerOfTwo(attempt - 1));
    ProductMonotone(c.backoff, PowerOfTwo(attempt - 1), PowerOfTwo(attempt));
  }

  /** Backoff windows never shrink, never pass the cap, and are never negative. */
  lemma {:induction false} CeilingGrows(c: Config, attempt: int, later: int)
    requires 1 <= attempt <= later && c.backoff >= 0.0 && c.maxBackoff >= 0.0
    ensures 0.0 <= Ceiling(c, attempt)
    ensures Ceiling(c, attempt) <= Ceiling(c, later)
    ensures Ceiling(c, later) <= c.maxBackoff
    decreases later
  {
    WindowDoubles(c, attempt);
    if attempt < later {
      CeilingGrows(c, attempt, later - 1);
      WindowDoubles(c, later - 1);
    }
  }

  /** Any delay the jitter can draw. */
  predicate IsDelay(c: Config, attempt: int, delay: real)
    requires attempt >= 1
  {
    0.0 <= delay <= Ceiling(c, attempt)
  }

  // ------------------------------------------------------------------ one request

  /** The ending of a request whose attempts `attempt`, `attempt + 1`, ... would reply so. */
  function EndingFrom(replies: int -> Reply, attempt: int, max: int): Ending
    decreases max - attempt
  {
    if attempt > max then Exhausted
    else
      match replies(attempt)
      case Success(v) => Returned(v)
      case Permanent(_) => Raised(replies(attempt))
      case Transient(_) => if attempt == max then Raised(replies(attempt)) else EndingFrom(replies, attempt + 1, max)
  }

  /** The client used by one task at a time: permits are a counter. */
  class Client {
    const config: Config
    var free: nat

    constructor (config: Config)
      ensures this.config == config && free == config.maxConcurrency
    {
      this.config := config;
      free := config.maxConcurrency;
    }

    /** `draw` is the uniform random number the jitter is made of. */
    method BackoffDelay(attempt: int, draw: real) returns (delay: real)
      requires attempt >= 1 && 0.0 <= draw <= 1.0 && config.backoff >= 0.0 && config.maxBackoff >= 0.0
      ensures IsDelay(config, attempt, delay) && delay == Ceiling(config, attempt) * draw
    {
      var ceiling := Ceiling(config, attempt);
      CeilingGrows(config, attempt, attempt);
      ScaledDown(ceiling, draw);
      delay := ceiling * draw;
    }

    /** Attempts until success, a permanent failure, or the last transient one. Every permit
        taken is given back before sleeping and before returning. */
    method Request(replies: int -> Reply, draws: int -> real)
      returns (ending: Ending, history: seq<Reply>, sleeps: seq<real>)
      requires free > 0 && config.backoff >= 0.0 && config.maxBackoff >= 0.0
      requires forall k :: 0.0 <= draws(k) <= 1.0
      modifies this
      ensures free == old(free)
      ensures ending == EndingFrom(replies, 1, config.maxAttempts)
      ensures |history| <= Max(0, config.maxAttempts)
      ensures forall k :: 0 <= k < |history| ==> history[k] == replies(k + 1)
      ensures forall k :: 0 <= k < |history| - 1 ==> history[k].Transient?
      ensures ending.Exhausted? <==> history == []
      ensures history != [] ==> |sleeps| == |history| - 1
      ensures forall k :: 0 <= k < |sleeps| ==>
                IsDelay(config, k + 1, sleeps[k]) && sleeps[k] == Ceiling(config, k + 1) * draws(k + 1)
    {
      history, sleeps := [], [];
      var attempt := 1;
      while attempt <= config.maxAttempts
        invariant 1 <= attempt <= Max(0, config.maxAttempts) + 1
        invariant free == old(free)
        invariant EndingFrom(replies, attempt, config.maxAttempts) == EndingFrom(replies, 1, config.maxAttempts)
        invariant |history| == |sleeps| == attempt - 1
        invariant attempt > config.maxAttempts ==> attempt == 1
        invariant forall k :: 0 <= k < |history| ==> history[k] == replies(k + 1) && history[k].Transient?
        invariant forall k :: 0 <= k < |sleeps| ==>
                    IsDelay(config, k + 1, sleeps[k]) && sleeps[k] == Ceiling(config, k + 1) * draws(k + 1)
        decreases config.maxAttempts - attempt
      {
        free := free - 1;
        var reply := replies(attempt);
        history := history + [reply];
        free := free + 1;
        if reply.Success? {
          return Returned(reply.value), history, sleeps;
        }
        if reply.Permanent? || attempt == config.maxAttempts {
          return Raised(reply), history, sleeps;
        }
        var delay := BackoffDelay(attempt, draws(attempt));
        sleeps := sleeps + [delay];
        attempt := attempt + 1;
      }
      ending := Exhausted;
    }
  }

  function Max(a: int, b: int): int {
    if a < b then b else a
  }

  // ------------------------------------------------------------------ many requests

  /** Where a task stands; a staggered task is still pending, a waiting one queues for a permit. */
  datatype Phase =
    | Pending | Waiting(attempt: int) | Holding(attempt: int) | Backoff(attempt: int) | Ended(ending: Ending)

  datatype Task = Task(phase: Phase, history: seq<Reply>)

  datatype System = System(free: int, tasks: seq<Task>)

  datatype Step = Submit(task: nat) | Acquire(task: nat) | Complete(task: nat, reply: Reply) | Wake(task: nat)

  function Started(c: Config): Phase {
    if c.maxAttempts >= 1 then Waiting(1) else Ended(Exhausted)
  }

  function AfterReply(c: Config, attempt: int, reply: Reply): Phase {
    match reply
    case Success(v) => Ended(Returned(v))
    case Permanent(_) => Ended(Raised(reply))
    case Transient(_) => if attempt == c.maxAttempts then Ended(Raised(reply)) else Backoff(attempt)
  }

  predicate Enabled(s: System, step: Step) {
    step.task < |s.tasks| &&
    var phase := s.tasks[step.task].phase;
    match step
    case Submit(_) => phase.Pending?
    case Acquire(_) => phase.Waiting? && s.free > 0
    case Complete(_, _) => phase.Holding?
    case Wake(_) => phase.Backoff?
  }

  function TaskAfter(c: Config, t: Task, step: Step): Task {
    match step
    case Submit(_) => t.(phase := Started(c))
    case Acquire(_) => if t.phase.Waiting? then t.(phase := Holding(t.phase.attempt)) else t
    case Complete(_, reply) =>
      if t.phase.Holding? then Task(AfterReply(c, t.phase.attempt, reply), t.history + [reply]) else t
    case Wake(_) => if t.phase.Backoff? then t.(phase := Waiting(t.phase.attempt + 1)) else t
  }

  function After(c: Config, s: System, step: Step): System
    requires Enabled(s, step)
  {
    System(if step.Acquire? then s.free - 1 else if step.Complete? then s.free + 1 else s.free,
           s.tasks[step.task := TaskAfter(c, s.tasks[step.task], step)])
  }

  function Start(c: Config, n: nat): System {
    System(c.maxConcurrency, seq(n, _ => Task(Pending, [])))
  }

  /** The system after some interleaving; steps that are not enabled do not happen. */
  function Interleaved(c: Config, n: nat, steps: seq<Step>): System {
    if steps == [] then Start(c, n)
    else
      var s, step := Interleaved(c, n, steps[..|steps| - 1]), steps[|steps| - 1];
      if Enabled(s, step) then After(c, s, step) else s
  }

  // ------------------------------------------------------------------ what every interleaving keeps

  function Holders(tasks: seq<Task>): nat {
    if tasks == [] then 0 else Holders(tasks[..|tasks| - 1]) + if tasks[|tasks| - 1].phase.Holding? then 1 else 0
  }

  predicate AllTransient(h: seq<Reply>) {
    forall k :: 0 <= k < |h| ==> h[k].Transient?
  }

  ghost predicate TaskSound(c: Config, t: Task) {
    && |t.history| <= Max(0, c.maxAttempts)
    && match t.phase
       case Pending => t.history == []
       case Waiting(a) => 1 <= a <= c.maxAttempts && |t.history| == a - 1 && AllTransient(t.history)
       case Holding(a) => 1 <= a <= c.maxAttempts && |t.history| == a - 1 && AllTransient(t.history)
       case Backoff(a) => 1 <= a < c.maxAttempts && |t.history| == a && AllTransient(t.history)
       case Ended(ending) => EndingSound(c, t.history, ending)
  }

  ghost predicate EndingSound(c: Config, h: seq<Reply>, ending: Ending) {
    match ending
    case Exhausted => h == [] && c.maxAttempts < 1
    case Returned(v) => h != [] && AllTransient(h[..|h| - 1]) && h[|h| - 1] == Success(v)
    case Raised(reply) =>
      && h != [] && AllTransient(h[..|h| - 1]) && h[|h| - 1] == reply && !reply.Success?
      && (reply.Transient? ==> |h| == c.maxAttempts)
  }

  ghost predicate Sound(c: Config, s: System) {
    && s.free >= 0 && s.free + Holders(s.tasks) == c.maxConcurrency
    && forall i :: 0 <= i < |s.tasks| ==> TaskSound(c, s.tasks[i])
  }

  lemma {:induction false} HoldersUpdate(tasks: seq<Task>, i: nat, t: Task)
    requires i < |tasks|
    ensures Holders(tasks[i := t]) ==
            Holders(tasks) - (if tasks[i].phase.Holding? then 1 else 0) + (if t.phase.Holding? then 1 else 0)
  {
    var n := |tasks| - 1;
    var updated := tasks[i := t];
    if i < n {
      HoldersUpdate(tasks[..n], i, t);
      assert updated[..n] == tasks[..n][i := t];
    } else {
      assert updated[..n] == tasks[..n];
    }
  }

  lemma StepKeepsSound(c: Config, s: System, step: Step)
    requires Sound(c, s) && Enabled(s, step)
    ensures Sound(c, After(c, s, step))
  {
    var t := TaskAfter(c, s.tasks[step.task], step);
    HoldersUpdate(s.tasks, step.task, t);
  }

  lemma {:induction false} NoHolders(tasks: seq<Task>)
    requires forall i :: 0 <= i < |tasks| ==> tasks[i].phase.Pending?
    ensures Holders(tasks) == 0
  {
    if tasks != [] {
      NoHolders(tasks[..|tasks| - 1]);
    }
  }

  /** In every interleaving: permits held and free make up the limit, a task in backoff holds
      none, no task exceeds its attempts, and only transient replies are followed by another. */
  lemma {:induction false} EveryInterleavingSound(c: Config, n: nat, steps: seq<Step>)
    ensures && Sound(c, Interleaved(c, n, steps))
            && |Interleaved(c, n, steps).tasks| == n
  {
    if steps == [] {
      NoHolders(Start(c, n).tasks);
    } else {
      EveryInterleavingSound(c, n, steps[..|steps| - 1]);
      var s, step := Interleaved(c, n, steps[..|steps| - 1]), steps[|steps| - 1];
      if Enabled(s, step) {
        StepKeepsSound(c, s, step);
      }
    }
  }

  lemma {:induction false} SomeHolder(tasks: seq<Task>)
    requires Holders(tasks) > 0
    ensures exists i :: 0 <= i < |tasks| && tasks[i].phase.Holding?
  {
    var n := |tasks| - 1;
    if !tasks[n].phase.Holding? {
      SomeHolder(tasks[..n]);
      var i :| 0 <= i < |tasks[..n]| && tasks[..n][i].phase.Holding?;
      assert tasks[i].phase.Holding?;
    }
  }

  ghost predicate CanMove(s: System) {
    exists step :: Enabled(s, step)
  }

  ghost predicate AllEnded(s: System) {
    forall i :: 0 <= i < |s.tasks| ==> s.tasks[i].phase.Ended?
  }

  /** No deadlock: with at least one permit, an unfinished system can always move. */
  lemma Progress(c: Config, s: System)
    requires Sound(c, s) && c.maxConcurrency >= 1 && !AllEnded(s)
    ensures CanMove(s)
  {
    var i :| 0 <= i < |s.tasks| && !s.tasks[i].phase.Ended?;
    match s.tasks[i].phase
    case Pending => assert Enabled(s, Submit(i));
    case Holding(_) => assert Enabled(s, Complete(i, Success(0)));
    case Backoff(_) => assert Enabled(s, Wake(i));
    case Waiting(_) =>
      if s.free > 0 {
        assert Enabled(s, Acquire(i));
      } else {
        SomeHolder(s.tasks);
        var j :| 0 <= j < |s.tasks| && s.tasks[j].phase.Holding?;
        assert Enabled(s, Complete(j, Success(0)));
      }
  }

  /** Without a permit it cannot: a submitted request that may attempt anything waits forever. */
  lemma StuckWithoutPermits(c: Config)
    requires c.maxConcurrency == 0 && c.maxAttempts >= 1
    ensures var s := Interleaved(c, 1, [Submit(0)]); !AllEnded(s) && !CanMove(s)
  {
    var steps := [Submit(0)];
    assert steps[..0] == [];
    assert Interleaved(c, 1, steps[..0]) == Start(c, 1);
    assert Enabled(Start(c, 1), Submit(0));
    var s := Interleaved(c, 1, steps);
    assert s == After(c, Start(c, 1), Submit(0));
    assert s.tasks[0].phase == Waiting(1);
  }

  /** Deadlock freedom over every interleaving holds exactly when a permit exists, or no
      attempt is ever allowed. */
  lemma ProgressExactly(c: Config)
    ensures (forall n: nat, steps :: !AllEnded(Interleaved(c, n, steps)) ==> CanMove(Interleaved(c, n, steps)))
            <==> c.maxConcurrency >= 1 || c.maxAttempts < 1
  {
    if c.maxConcurrency >= 1 || c.maxAttempts < 1 {
      forall n: nat, steps | !AllEnded(Interleaved(c, n, steps)) ensures CanMove(Interleaved(c, n, steps)) {
        EveryInterleavingSound(c, n, steps);
        if c.maxConcurrency >= 1 {
          Progress(c, Interleaved(c, n, steps));
        } else {
          NeverWaits(c, Interleaved(c, n, steps));
        }
      }
    } else {
      StuckWithoutPermits(c);
    }
  }

  lemma NeverWaits(c: Config, s: System)
    requires Sound(c, s) && c.maxAttempts < 1 && !AllEnded(s)
    ensures CanMove(s)
  {
    var i :| 0 <= i < |s.tasks| && !s.tasks[i].phase.Ended?;
    assert Enabled(s, Submit(i));
  }

  // ------------------------------------------------------------------ termination

  /** Steps a task may still take. */
  function Remaining(c: Config, t: Task): int {
    match t.phase
    case Pending => 3 * Max(0, c.maxAttempts) + 1
    case Waiting(a) => 3 * (c.maxAttempts - a) + 3
    case Holding(a) => 3 * (c.maxAttempts - a) + 2
    case Backoff(a) => 3 * (c.maxAttempts - a) + 1
    case Ended(_) => 0
  }

  function TotalRemaining(c: Config, tasks: seq<Task>): int {
    if tasks == [] then 0 else TotalRemaining(c, tasks[..|tasks| - 1]) + Remaining(c, tasks[|tasks| - 1])
  }

  lemma {:induction false} TotalUpdate(c: Config, tasks: seq<Task>, i: nat, t: Task)
    requires i < |tasks|
    ensures TotalRemaining(c, tasks[i := t]) == TotalRemaining(c, tasks) - Remaining(c, tasks[i]) + Remaining(c, t)
  {
    var n := |tasks| - 1;
    var updated := tasks[i := t];
    if i < n {
      TotalUpdate(c, tasks[..n], i, t);
      assert updated[..n] == tasks[..n][i := t];
    } else {
      assert updated[..n] == tasks[..n];
    }
  }

  lemma {:induction false} TotalNonNegative(c: Config, tasks: seq<Task>)
    requires forall i :: 0 <= i < |tasks| ==> TaskSound(c, tasks[i])
    ensures 0 <= TotalRemaining(c, tasks)
  {
    if tasks != [] {
      TotalNonNegative(c, tasks[..|tasks| - 1]);
    }
  }

  /** Every step uses up some of what remains, so every interleaving ends. */
  lemma StepDecreases(c: Config, s: System, step: Step)
    requires Sound(c, s) && Enabled(s, step)
    ensures 0 <= TotalRemaining(c, After(c, s, step).tasks) < TotalRemaining(c, s.tasks)
  {
    var t := TaskAfter(c, s.tasks[step.task], step);
    TotalUpdate(c, s.tasks, step.task, t);
    StepKeepsSound(c, s, step);
    TotalNonNegative(c, After(c, s, step).tasks);
    assert TaskSound(c, s.tasks[step.task]);
  }

  /** Steps of an interleaving that did happen. */
  function Taken(c: Config, n: nat, steps: seq<Step>): nat {
    if steps == [] then 0
    else
      Taken(c, n, steps[..|steps| - 1])
      + if Enabled(Interleaved(c, n, steps[..|steps| - 1]), steps[|steps| - 1]) then 1 else 0
  }

  lemma {:induction false} TakenBounded(c: Config, n: nat, steps: seq<Step>)
    ensures Taken(c, n, steps)
            + TotalRemaining(c, Interleaved(c, n, steps).tasks) <= TotalRemaining(c, Start(c, n).tasks)
  {
    if steps != [] {
      var front := steps[..|steps| - 1];
      TakenBounded(c, n, front);
      EveryInterleavingSound(c, n, front);
      var s, step := Interleaved(c, n, front), steps[|steps| - 1];
      if Enabled(s, step) {
        StepDecreases(c, s, step);
      }
    }
  }

  lemma {:induction false} StartTotal(c: Config, tasks: seq<Task>)
    requires forall i :: 0 <= i < |tasks| ==> tasks[i].phase.Pending?
    ensures TotalRemaining(c, tasks) == |tasks| * (3 * Max(0, c.maxAttempts) + 1)
  {
    if tasks != [] {
      var n := |tasks| - 1;
      StartTotal(c, tasks[..n]);
      assert (n + 1) * (3 * Max(0, c.maxAttempts) + 1)
             == n * (3 * Max(0, c.maxAttempts) + 1) + 3 * Max(0, c.maxAttempts) + 1;
    }
  }

  function TotalAttempts(tasks: seq<Task>): nat {
    if tasks == [] then 0 else TotalAttempts(tasks[..|tasks| - 1]) + |tasks[|tasks| - 1].history|
  }

  lemma {:induction false} AttemptsBounded(c: Config, tasks: seq<Task>)
    requires forall i :: 0 <= i < |tasks| ==> TaskSound(c, tasks[i])
    ensures TotalAttempts(tasks) <= |tasks| * Max(0, c.maxAttempts)
  {
    if tasks != [] {
      var n := |tasks| - 1;
      AttemptsBounded(c, tasks[..n]);
      assert (n + 1) * Max(0, c.maxAttempts) == n * Max(0, c.maxAttempts) + Max(0, c.maxAttempts);
    }
  }

  /** `n` requests make at most `n` times the allowed attempts, in boundedly many steps. */
  lemma WorkBounded(c: Config, n: nat, steps: seq<Step>)
    ensures TotalAttempts(Interleaved(c, n, steps).tasks) <= n * Max(0, c.maxAttempts)
    ensures Taken(c, n, steps) <= n * (3 * Max(0, c.maxAttempts) + 1)
  {
    EveryInterleavingSound(c, n, steps);
    AttemptsBounded(c, Interleaved(c, n, steps).tasks);
    TakenBounded(c, n, steps);
    TotalNonNegative(c, Interleaved(c, n, steps).tasks);
    StartTotal(c, Start(c, n).tasks);
  }

  // ------------------------------------------------------------------ the two forms agree

  /** The reply of attempt `k`, read back from a task's history. */
  function RepliesOf(h: seq<Reply>): int -> Reply {
    (k: int) => if 1 <= k <= |h| then h[k - 1] else Transient(0)
  }

  lemma {:induction false} EndingAfterTransients(replies: int -> Reply, attempt: int, stop: int, max: int)
    requires attempt <= stop && stop <= max
    requires forall k: int :: attempt <= k && k < stop ==> replies(k).Transient?
    ensures EndingFrom(replies, attempt, max) == EndingFrom(replies, stop, max)
    decreases stop - attempt
  {
    if attempt < stop {
      assert replies(attempt).Transient?;
      assert EndingFrom(replies, attempt, max) == EndingFrom(replies, attempt + 1, max);
      EndingAfterTransients(replies, attempt + 1, stop, max);
    }
  }

  /** A task that ended among others ended as it would have alone on the same replies. */
  lemma EndsAsAlone(c: Config, n: nat, steps: seq<Step>, i: nat)
    requires i < |Interleaved(c, n, steps).tasks| && Interleaved(c, n, steps).tasks[i].phase.Ended?
    ensures var t := Interleaved(c, n, steps).tasks[i];
            t.phase.ending == EndingFrom(RepliesOf(t.history), 1, c.maxAttempts)
  {
    EveryInterleavingSound(c, n, steps);
    var t := Interleaved(c, n, steps).tasks[i];
    assert TaskSound(c, t);
    if t.history != [] {
      var h, last := t.history, |t.history|;
      forall k | 1 <= k < last ensures RepliesOf(h)(k).Transient? {
        assert h[..last - 1][k - 1] == h[k - 1];
      }
      EndingAfterTransients(RepliesOf(h), 1, last, c.maxAttempts);
    }
  }

  // ------------------------------------------------------------------ the windows of the backoff

  /** The first ceiling is the base delay, and each one doubles the one before, up to the cap. */
  lemma CeilingDoubles(c: Config, attempt: int)
    requires attempt >= 1 && c.backoff >= 0.0 && c.maxBackoff >= 0.0
    ensures Ceiling(c, 1) == if c.backoff <= c.maxBackoff then c.backoff else c.maxBackoff
    ensures Ceiling(c, attempt + 1)
            == if 2.0 * Ceiling(c, attempt) <= c.maxBackoff then 2.0 * Ceiling(c, attempt) else c.maxBackoff
  {
    WindowTwice(c, attempt);
    WindowDoubles(c, attempt);
    assert c.backoff * 1.0 == c.backoff;
  }

  lemma WindowTwice(c: Config, attempt: int)
    requires attempt >= 1
    ensures Window(c, attempt + 1) == 2.0 * Window(c, attempt)
  {
    var power := PowerOfTwo(attempt - 1);
    assert PowerOfTwo(attempt) == 2.0 * power;
    assert c.backoff * (2.0 * power) == 2.0 * (c.backoff * power);
  }
}
