/** Any number of readers and writers on one pipe: every hold of the mutex is a step, sleeping on
    the condition variable a visible state. */
module PipeMachine {
  import opened Pipe

  datatype Pc =
    | Idle
    | Writing(p: seq<Byte>)         // about to take the mutex in Write
    | Reading(n: nat)               // about to take the mutex in Read
    | WriteAsleep(p: seq<Byte>)
    | ReadAsleep(n: nat)

  datatype Act =
    | CallWrite(t: nat, p: seq<Byte>) | CallRead(t: nat, n: nat)
    | Proceed(t: nat)
    | CloseWriteEnd | CloseReadEnd

  /** `accepted`, `delivered` and `largest` are history. */
  datatype State = State(pipe: Buffer, threads: seq<Pc>, accepted: seq<Byte>, delivered: seq<Byte>, largest: nat)

  /** cond.Broadcast. */
  function Woken(threads: seq<Pc>): (woken: seq<Pc>)
    ensures |woken| == |threads|
  {
    seq(|threads|, t requires 0 <= t < |threads| =>
      match threads[t]
      case WriteAsleep(p) => Writing(p)
      case ReadAsleep(n) => Reading(n)
      case pc => pc)
  }

  /** What goroutine `t` gets when it holds the mutex now. */
  function Attempt(s: State, t: nat): (Outcome, Buffer)
    requires t < |s.threads|
  {
    match s.threads[t]
    case Writing(p) => WriteOnce(s.pipe, p)
    case Reading(n) => ReadOnce(s.pipe, n)
    case _ => (Panics, s.pipe)
  }

  predicate Enabled(s: State, a: Act) {
    match a
    case CallWrite(t, p) => t < |s.threads| && s.threads[t].Idle? && |p| <= MAX_LENGTH
    case CallRead(t, _) => t < |s.threads| && s.threads[t].Idle?
    case Proceed(t) =>
      t < |s.threads| && (s.threads[t].Writing? || s.threads[t].Reading?) && !Attempt(s, t).0.Panics?
    case _ => true
  }

  function Asleep(pc: Pc): Pc
    requires pc.Writing? || pc.Reading?
  {
    if pc.Writing? then WriteAsleep(pc.p) else ReadAsleep(pc.n)
  }

  function Apply(s: State, a: Act): State
    requires Enabled(s, a)
  {
    match a
    case CallWrite(t, p) => s.(threads := s.threads[t := Writing(p)])
    case CallRead(t, n) => s.(threads := s.threads[t := Reading(n)])
    case Proceed(t) =>
      var (outcome, pipe) := Attempt(s, t);
      (match outcome
       case Sleeps => s.(threads := s.threads[t := Asleep(s.threads[t])])
       case Accepted =>
         s.(pipe := pipe, threads := Woken(s.threads)[t := Idle],
            accepted := s.accepted + s.threads[t].p, largest := Max(s.largest, |s.threads[t].p|))
       case Delivered(data) => s.(pipe := pipe, threads := Woken(s.threads)[t := Idle], delivered := s.delivered + data)
       case _ => s.(threads := s.threads[t := Idle]))
    case CloseWriteEnd => s.(pipe := s.pipe.(writerDone := true), threads := Woken(s.threads))
    case CloseReadEnd => s.(pipe := s.pipe.(closed := true), threads := Woken(s.threads))
  }

  ghost predicate Init(s: State) {
    && s.pipe.bytes == [] && s.pipe.limit < UINT64 && !s.pipe.writerDone && !s.pipe.closed
    && (forall t :: 0 <= t < |s.threads| ==> s.threads[t].Idle?)
    && s.accepted == s.delivered == [] && s.largest == 0
  }

  ghost predicate IsRun(run: seq<State>, acts: seq<Act>) {
    && |run| == |acts| + 1 && Init(run[0])
    && forall k :: 0 <= k < |acts| ==> Enabled(run[k], acts[k]) && run[k + 1] == Apply(run[k], acts[k])
  }

  // ---------------------------------------------------------------- the invariant

  /** A sleeper's guard holds. */
  ghost predicate SleepOk(b: Buffer, pc: Pc) {
    match pc
    case Writing(p) => |p| <= MAX_LENGTH
    case WriteAsleep(p) => |p| <= MAX_LENGTH && Full(b, |p|) && !b.closed
    case ReadAsleep(_) => b.bytes == [] && !b.writerDone && !b.closed
    case _ => true
  }

  ghost predicate Inv(s: State) {
    && s.accepted == s.delivered + s.pipe.bytes && |s.pipe.bytes| <= MAX_LENGTH
    && (s.pipe.limit > 0 ==> |s.pipe.bytes| <= Max(s.pipe.limit, s.largest))
    && forall t :: 0 <= t < |s.threads| ==> SleepOk(s.pipe, s.threads[t])
  }

  lemma WokenOk(s: State, pipe: Buffer)
    requires Inv(s)
    ensures forall t :: 0 <= t < |s.threads| ==> SleepOk(pipe, Woken(s.threads)[t])
  {
    forall t | 0 <= t < |s.threads| ensures SleepOk(pipe, Woken(s.threads)[t]) {
      assert SleepOk(s.pipe, s.threads[t]);
    }
  }

  lemma ProceedInv(s: State, t: nat)
    requires Inv(s) && Enabled(s, Proceed(t))
    ensures Inv(Apply(s, Proceed(t)))
  {
    assert Inv(Apply(s, Proceed(t))) by {
      assert SleepOk(s.pipe, s.threads[t]);
      var pc := if Attempt(s, t).0.Sleeps? then Asleep(s.threads[t]) else Idle;
      hide SleepOk;
    }
    assert Inv(Apply(s, Proceed(t)));
    hide Inv, Apply, Attempt;
    if Attempt(s, t).0.Accepted? {
    } else if Attempt(s, t).0.Delivered? {
    } else {
    }
  }

  lemma StepInv(s: State, a: Act)
    requires Inv(s) && Enabled(s, a)
    ensures Inv(Apply(s, a)) && Apply(s, a).pipe.limit == s.pipe.limit && |Apply(s, a).threads| == |s.threads|
  {
    match a
    case Proceed(t) => ProceedInv(s, t);
    case CloseWriteEnd => WokenOk(s, s.pipe.(writerDone := true));
    case CloseReadEnd => WokenOk(s, s.pipe.(closed := true));
    case _ =>
  }

  lemma {:induction false} RunInv(run: seq<State>, acts: seq<Act>, k: nat)
    requires IsRun(run, acts) && k < |run|
    ensures Inv(run[k])
  {
    if k > 0 {
      RunInv(run, acts, k - 1);
      hide Inv, Apply, Enabled;
      assert Enabled(run[k - 1], acts[k - 1]) && run[k - 1 + 1] == Apply(run[k - 1], acts[k - 1]);
      StepInv(run[k - 1], acts[k - 1]);
    }
  }

  // ---------------------------------------------------------------- what every run satisfies

  /** Nobody sleeps while the guard it sleeps on is false: no wake-up is missed. */
  lemma NoSleepWithoutCause(run: seq<State>, acts: seq<Act>, k: nat, t: nat)
    requires IsRun(run, acts) && k < |run| && t < |run[k].threads|
    ensures run[k].threads[t].WriteAsleep? ==> !Room(run[k].pipe, |run[k].threads[t].p|) && !run[k].pipe.closed
    ensures run[k].threads[t].ReadAsleep? ==>
              run[k].pipe.bytes == [] && !run[k].pipe.writerDone && !run[k].pipe.closed
  {
    RunInv(run, acts, k);
    assert SleepOk(run[k].pipe, run[k].threads[t]);
    if run[k].threads[t].WriteAsleep? {
      NoWrap(run[k].pipe, |run[k].threads[t].p|);
    }
  }

  /** A blocked reader and a blocked writer never coexist. */
  lemma NeverBothBlocked(run: seq<State>, acts: seq<Act>, k: nat, t: nat, u: nat)
    requires IsRun(run, acts) && k < |run| && t < |run[k].threads| && u < |run[k].threads|
    ensures !(run[k].threads[t].ReadAsleep? && run[k].threads[u].WriteAsleep?)
  {
    RunInv(run, acts, k);
    assert SleepOk(run[k].pipe, run[k].threads[t]) && SleepOk(run[k].pipe, run[k].threads[u]);
  }

  /** The bytes read, followed by the buffered ones, are the accepted writes in order; a limited
      backlog never exceeds the limit or the largest single write. */
  lemma ConservedAndBounded(run: seq<State>, acts: seq<Act>, k: nat)
    requires IsRun(run, acts) && k < |run|
    ensures run[k].delivered + run[k].pipe.bytes == run[k].accepted
    ensures run[k].pipe.limit > 0 ==> |run[k].pipe.bytes| <= Max(run[k].pipe.limit, run[k].largest)
  {
    RunInv(run, acts, k);
  }

  /** End of file is reported only after closeWrite, when everything accepted was read. */
  lemma EofIsEnd(run: seq<State>, acts: seq<Act>, k: nat, t: nat)
    requires IsRun(run, acts) && k < |acts| && acts[k] == Proceed(t)
    requires t < |run[k].threads| && Attempt(run[k], t).0 == Eof
    ensures run[k].pipe.writerDone && run[k].delivered == run[k].accepted && CloseWriteEnd in acts[..k]
  {
    RunInv(run, acts, k);
    hide Inv;
    DoneMeansClosed(run, acts, k);
  }

  lemma {:induction false} DoneMeansClosed(run: seq<State>, acts: seq<Act>, k: nat)
    requires IsRun(run, acts) && k < |run|
    ensures run[k].pipe.writerDone ==> CloseWriteEnd in acts[..k]
  {
    if k > 0 {
      DoneMeansClosed(run, acts, k - 1);
      assert Enabled(run[k - 1], acts[k - 1]) && run[k - 1 + 1] == Apply(run[k - 1], acts[k - 1]);
      assert acts[..k] == acts[..k - 1] + [acts[k - 1]];
    }
  }

  // ---------------------------------------------------------------- what one hold of the mutex does

  /** A read that finds bytes takes as many of the oldest as it has room for. */
  lemma ReadTakes(run: seq<State>, acts: seq<Act>, k: nat, t: nat)
    requires IsRun(run, acts) && k < |acts| && acts[k] == Proceed(t)
    requires t < |run[k].threads| && run[k].threads[t].Reading? && run[k].pipe.bytes != []
    ensures var s, n := run[k], Min(run[k].threads[t].n, |run[k].pipe.bytes|);
            && run[k + 1].delivered == s.delivered + s.pipe.bytes[..n]
            && run[k + 1].pipe == s.pipe.(bytes := s.pipe.bytes[n..])
            && run[k + 1].accepted == s.accepted && t < |run[k + 1].threads| && run[k + 1].threads[t] == Idle
  {
    assert run[k + 1] == Apply(run[k], acts[k]);
  }

  /** A read that finds none ends when no more can come, and otherwise waits. */
  lemma ReadFindsNone(run: seq<State>, acts: seq<Act>, k: nat, t: nat)
    requires IsRun(run, acts) && k < |acts| && acts[k] == Proceed(t)
    requires t < |run[k].threads| && run[k].threads[t].Reading? && run[k].pipe.bytes == []
    ensures var s, s' := run[k], run[k + 1];
            && s'.pipe == s.pipe && s'.delivered == s.delivered && s'.accepted == s.accepted && t < |s'.threads|
            && s'.threads[t] == if s.pipe.writerDone || s.pipe.closed then Idle else ReadAsleep(s.threads[t].n)
  {
    assert run[k + 1] == Apply(run[k], acts[k]);
  }

  /** A write is refused when the read end is closed, waits while there is no room, and is appended as a
      whole otherwise. */
  lemma WriteDecides(run: seq<State>, acts: seq<Act>, k: nat, t: nat)
    requires IsRun(run, acts) && k < |acts| && acts[k] == Proceed(t)
    requires t < |run[k].threads| && run[k].threads[t].Writing?
    ensures var s, s', p := run[k], run[k + 1], run[k].threads[t].p;
            && s'.delivered == s.delivered && t < |s'.threads|
            && if s.pipe.closed then s'.pipe == s.pipe && s'.accepted == s.accepted && s'.threads[t] == Idle
               else if !Room(s.pipe, |p|) then
                 s'.pipe == s.pipe && s'.accepted == s.accepted && s'.threads[t] == WriteAsleep(p)
               else
                 && s'.accepted == s.accepted + p && s'.threads[t] == Idle
                 && s'.pipe == s.pipe.(bytes := s.pipe.bytes + p)
  {
    RunInv(run, acts, k);
    assert SleepOk(run[k].pipe, run[k].threads[t]);
    NoWrap(run[k].pipe, |run[k].threads[t].p|);
    assert Enabled(run[k], acts[k]) && run[k + 1] == Apply(run[k], acts[k]);
  }

  /** Once the read end is closed nothing more is accepted. */
  lemma {:induction false} ClosedRefuses(run: seq<State>, acts: seq<Act>, c: nat, k: nat)
    requires IsRun(run, acts) && c < k < |run| && acts[c] == CloseReadEnd
    ensures run[k].pipe.closed && run[k].accepted == run[c].accepted
  {
    assert Enabled(run[k - 1], acts[k - 1]) && run[k - 1 + 1] == Apply(run[k - 1], acts[k - 1]);
    if c + 1 < k {
      ClosedRefuses(run, acts, c, k - 1);
    }
  }

  // ---------------------------------------------------------------- reads unblock writers

  /** A read with room for a byte takes the mutex while something is buffered. */
  predicate Drains(s: State, a: Act) {
    && a.Proceed? && a.t < |s.threads| && s.threads[a.t].Reading? && s.threads[a.t].n > 0
    && s.pipe.bytes != []
  }

  /** How many such reads there are from `i` to `j`. */
  function Drained(run: seq<State>, acts: seq<Act>, i: nat, j: nat): nat
    requires i <= j <= |acts| <= |run|
  {
    if i == j then 0 else Drained(run, acts, i, j - 1) + if Drains(run[j - 1], acts[j - 1]) then 1 else 0
  }

  /** A step that accepts nothing leaves the backlog, or shortens it. */
  lemma StepShrinks(run: seq<State>, acts: seq<Act>, k: nat)
    requires IsRun(run, acts) && k < |acts| && run[k + 1].accepted == run[k].accepted
    ensures |run[k + 1].pipe.bytes| + (if Drains(run[k], acts[k]) then 1 else 0) <= |run[k].pipe.bytes|
  {
    assert Enabled(run[k], acts[k]) && run[k + 1] == Apply(run[k], acts[k]);
    if Drains(run[k], acts[k]) {
      ReadTakes(run, acts, k, acts[k].t);
    } else {
      ConservedAndBounded(run, acts, k);
      ConservedAndBounded(run, acts, k + 1);
      assert run[k].delivered <= run[k + 1].delivered;
    }
    hide Apply, Enabled, IsRun;
  }

  /** The measure: without further writes, every read that finds bytes shortens the backlog. */
  lemma {:induction false} BacklogShrinks(run: seq<State>, acts: seq<Act>, i: nat, j: nat)
    requires IsRun(run, acts) && i <= j < |run|
    requires forall k :: i <= k < j ==> run[k + 1].accepted == run[k].accepted
    ensures |run[j].pipe.bytes| + Drained(run, acts, i, j) <= |run[i].pipe.bytes|
  {
    if i < j {
      BacklogShrinks(run, acts, i, j - 1);
      hide Apply, Enabled, Init, Drains;
      StepShrinks(run, acts, j - 1);
    }
  }

  /** Once as many reads found bytes as bytes were buffered, and nothing was written, no writer is asleep
      and no writer that takes the mutex goes to sleep. */
  lemma ReadsUnblockWriters(run: seq<State>, acts: seq<Act>, i: nat, j: nat, t: nat)
    requires IsRun(run, acts) && i <= j < |run| && t < |run[j].threads|
    requires forall k :: i <= k < j ==> run[k + 1].accepted == run[k].accepted
    requires Drained(run, acts, i, j) >= |run[i].pipe.bytes|
    ensures !run[j].threads[t].WriteAsleep?
    ensures run[j].threads[t].Writing? ==> Room(run[j].pipe, |run[j].threads[t].p|)
  {
    BacklogShrinks(run, acts, i, j);
    NoSleepWithoutCause(run, acts, j, t);
    hide IsRun, Drained;
  }
}
