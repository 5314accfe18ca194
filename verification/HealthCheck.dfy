/** performHealthCheck: a loop bounded by a deadline. Times are milliseconds of a monotone clock. */
module HealthCheck {
  datatype Health = Healthy | TimedOut | NotStarted | Disconnected | ProcessExited

  /** What becomes of one run of the command. */
  datatype Run = Exited(ok: bool) | Unstartable | Overran | ClientLeft | ProcessLeft

  /** The result that the last run leads to: a failed one to no interval being left, or to an end of the pause. */
  predicate Decides(run: Run, health: Health) {
    match run
    case Exited(ok) => if ok then health == Healthy else health != Healthy && health != NotStarted
    case Unstartable => health == NotStarted
    case Overran => health == TimedOut
    case ClientLeft => health == Disconnected
    case ProcessLeft => health == ProcessExited
  }

  /** How many starts an interval apart fit before the deadline: the timeout over the interval, rounded up. */
  function MostRuns(timeout: int, interval: int): nat
    requires interval > 0
  {
    if timeout <= 0 then 0 else (timeout + interval - 1) / interval
  }

  /** The first `n` runs failed. */
  ghost predicate Failed(runs: seq<Run>, n: int) {
    n <= |runs| && forall i :: 0 <= i < n ==> runs[i] == Exited(false)
  }

  lemma NextRun(runs: seq<Run>, run: Run)
    requires Failed(runs, |runs|)
    ensures Failed(runs + [run], |runs|)
    ensures run == Exited(false) ==> Failed(runs + [run], |runs| + 1)
  {
  }

  /** Starts within the deadline, at least an interval apart. */
  ghost predicate Spaced(starts: seq<int>, begin: int, timeout: int, interval: int) {
    && (forall i :: 0 <= i < |starts| ==> begin <= starts[i] < begin + timeout)
    && forall i, j :: 0 <= i < j < |starts| ==> starts[i] + interval <= starts[j]
  }

  lemma {:induction false} LastStart(starts: seq<int>, begin: int, timeout: int, interval: nat)
    requires Spaced(starts, begin, timeout, interval) && starts != []
    ensures begin + (|starts| - 1) * interval <= starts[|starts| - 1]
  {
    var n := |starts| - 1;
    if n > 0 {
      assert starts[..n][n - 1] == starts[n - 1];
      LastStart(starts[..n], begin, timeout, interval);
      assert (n - 1) * interval + interval == n * interval;
    }
  }

  lemma SpacedCount(starts: seq<int>, begin: int, timeout: int, interval: int)
    requires interval > 0 && Spaced(starts, begin, timeout, interval)
    ensures |starts| <= MostRuns(timeout, interval)
  {
    if starts != [] {
      LastStart(starts, begin, timeout, interval);
      var n := |starts| - 1;
      assert n * interval < timeout;
      Quotient(n, timeout, interval);
    }
  }

  lemma Quotient(n: nat, timeout: int, interval: int)
    requires interval > 0 && n * interval < timeout
    ensures n + 1 <= (timeout + interval - 1) / interval
  {
    var q := (timeout + interval - 1) / interval;
    assert q * interval > timeout - 1;
    if q <= n {
      TimesMonotone(q, n, interval);
    }
  }

  lemma TimesMonotone(a: int, b: int, k: int)
    requires a <= b && 0 <= k
    ensures a * k <= b * k
  {
  }

  method Later(earlier: int) returns (now: int)
    ensures earlier <= now
  {
    now := *;
    if now < earlier {
      now := earlier;
    }
  }

  /** Runs the command until it exits with 0. `starts` are the times at which it was started: none is started at or
      after the deadline, and at most `MostRuns` are started in all. `runs` is what became of them: all but the last
      failed, and the last decides the result. `ended` is the time of the result: it times out only when no interval was
      left. */
  method PerformHealthCheck(hasCommand: bool, timeout: int, configured: nat, stoppedOnExit: bool, begin: int)
    returns (health: Health, ghost starts: seq<int>, ghost runs: seq<Run>, ghost ended: int)
    ensures !hasCommand ==> health == Healthy && starts == []
    ensures var interval := if configured == 0 then 100 else configured;
            Spaced(starts, begin, timeout, interval) && |starts| <= MostRuns(timeout, interval)
    ensures |runs| == |starts| && Failed(runs, |runs| - 1)
    ensures hasCommand ==> if runs == [] then health == TimedOut else Decides(runs[|runs| - 1], health)
    ensures health == TimedOut ==> begin + timeout < ended + if configured == 0 then 100 else configured
    ensures begin <= ended && (starts != [] ==> starts[|starts| - 1] <= ended)
    ensures health == ProcessExited ==> stoppedOnExit
  {
    starts, runs := [], [];
    var interval := if configured == 0 then 100 else configured;
    if !hasCommand {
      return Healthy, [], [], begin;
    }
    var deadline, now := begin + timeout, begin;
    ghost var run;
    assert Spaced([], begin, timeout, interval);
    assert forall h :: h != Healthy && h != NotStarted ==> Decides(Exited(false), h);
    assert Failed([], 0) && Failed([], -1);
    hide Spaced, MostRuns, Decides, Failed;
    SpacedCount([], begin, timeout, interval);
    while true
      invariant begin <= now && Spaced(starts, begin, timeout, interval) && |starts| <= MostRuns(timeout, interval)
      invariant starts != [] ==> starts[|starts| - 1] + interval <= now
      invariant |runs| == |starts| && Failed(runs, |runs|)
      decreases if now < deadline then deadline - now else 0
    {
      now := Later(now);
      if deadline - now <= 0 {
        return TimedOut, starts, runs, now;
      }
      Started(starts, begin, timeout, interval, now);
      starts := starts + [now];
      SpacedCount(starts, begin, timeout, interval);
      var over: bool;
      over, health, run := Execute(stoppedOnExit);
      NextRun(runs, run);
      runs := runs + [run];
      if over {
        if health == TimedOut {
          now := Later(deadline);
        }
        return health, starts, runs, now;
      }
      now := Later(now);
      if interval > deadline - now {
        return TimedOut, starts, runs, now;
      }
      var stop, why := Pause(stoppedOnExit);
      if stop {
        return why, starts, runs, now;
      }
      now := Later(now + interval);
    }
  }

  /** One run: the shell, the client and the deadline decide. The end of the process counts only where it stops the
      service. */
  method Execute(stoppedOnExit: bool) returns (over: bool, health: Health, ghost run: Run)
    ensures if over then Decides(run, health) else run == Exited(false)
    ensures over && health == ProcessExited ==> stoppedOnExit
  {
    var outcome: Run := *;
    if outcome == ProcessLeft && !stoppedOnExit {
      outcome := Exited(false);
    }
    over, run := outcome != Exited(false), outcome;
    health := match outcome
      case Exited(_) => Healthy
      case Unstartable => NotStarted
      case Overran => TimedOut
      case ClientLeft => Disconnected
      case ProcessLeft => ProcessExited;
  }

  /** Between two runs the client may leave and the process may end. */
  method Pause(stoppedOnExit: bool) returns (stop: bool, why: Health)
    ensures stop ==> why == Disconnected || (why == ProcessExited && stoppedOnExit)
  {
    stop, why := *, *;
    stop := stop && (why == Disconnected || (why == ProcessExited && stoppedOnExit));
  }

  lemma Started(starts: seq<int>, begin: int, timeout: int, interval: int, now: int)
    requires Spaced(starts, begin, timeout, interval) && begin <= now < begin + timeout
    requires starts != [] ==> starts[|starts| - 1] + interval <= now
    requires interval > 0
    ensures Spaced(starts + [now], begin, timeout, interval)
  {
    var more := starts + [now];
    forall i, j | 0 <= i < j < |more| ensures more[i] + interval <= more[j] {
      if j == |starts| && i < |starts| - 1 {
        assert starts[i] + interval <= starts[|starts| - 1];
      }
    }
  }
}
