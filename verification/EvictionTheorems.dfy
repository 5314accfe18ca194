/** Evictions over whole runs: what each one removes while the other goroutines move, and whom. */
module EvictionTheorems {
  import opened Model
  import opened Machine
  import opened Invariant
  import opened Operations
  import opened Steps
  import opened Reachable
  import opened Interference
  import opened Scheduling

  // ---------------------------------------------------------------- one eviction

  /** The victim that the goroutine is stopping for its reservation. */
  function Removing(pc: Pc): Option<Service> {
    match pc
    case StopLookup(v, k) => if k.AfterEvict? then Some(v) else None
    case StopWait(v, _, k) => if k.AfterEvict? then Some(v) else None
    case StopHold(v, _, k) => if k.AfterEvict? then Some(v) else None
    case StopClean(v, _, k) => if k.AfterEvict? then Some(v) else None
    case Unlocking(v, _, after) => if after.ToCont? && after.k.AfterEvict? then Some(v) else None
    case _ => None
  }

  /** While nobody starts a service and the kill does not fail, the instance being stopped is the
      registered one until it has left. */
  ghost predicate EvictOk(m: Shared, pc: Pc) {
    match pc
    case StopWait(v, i, k) => k.AfterEvict? && v in m.running ==> m.running[v] == i
    case StopHold(v, i, k) => k.AfterEvict? && v in m.running ==> m.running[v] == i
    case StopClean(v, i, k) => k.AfterEvict? && v in m.running ==> m.running[v] == i
    case Unlocking(v, i, after) => after.ToCont? && after.k.AfterEvict? ==> v !in m.running
    case _ => true
  }

  /** A step that starts no service and is not a failed kill of `t`. */
  predicate Orderly(l: Label, t: nat) {
    l.Do? ==> !l.a.Create? && (l.t == t ==> l.a != Kill(false))
  }

  lemma EvictStays(m: Shared, m': Shared, pc: Pc)
    requires EvictOk(m, pc) && Shrinks(m, m')
    ensures EvictOk(m', pc)
  {
  }

  /** Clean-up of the registered instance unregisters it; one that was released is not registered. */
  lemma CleanUpLeaves(m: Shared, v: Service, i: nat)
    requires SharedOk(m) && Birth(m, i, v) && (v in m.running ==> m.running[v] == i)
    ensures v !in CleanUp(m, i).running
  {
    if v in m.running {
      Registered(m, v);
      assert !m.instances[i].released;
      CleanUpSame(m, i);
    }
    hide SharedOk;
  }

  lemma LookupEvicts(t: nat, a: Action, m: Shared, pc: Pc, m': Shared, pc': Pc, spawn: seq<Pc>, v: Service)
    requires Removing(pc) == Some(v) && pc.StopLookup? && Step(t, a, m, pc, m', pc', spawn)
    ensures EvictOk(m', pc')
    ensures Removing(pc') == Some(v) || (pc'.Starting? && pc'.phase == Pass(true) && v !in m'.running)
  {
    hide StartStep, ClientStep, Resume;
    ResumeMild(m, pc.k);
  }

  lemma LockEvicts(t: nat, a: Action, m: Shared, pc: Pc, m': Shared, pc': Pc, spawn: seq<Pc>, v: Service)
    requires EvictOk(m, pc) && Removing(pc) == Some(v) && (pc.StopWait? || pc.StopHold?)
    requires Step(t, a, m, pc, m', pc', spawn) && a != Kill(false)
    ensures EvictOk(m', pc') && Removing(pc') == Some(v)
  {
    hide StartStep, ClientStep, Acquire;
    if pc.StopWait? {
      AcquireRunning(m, pc.i, t);
    }
  }

  lemma CleanEvicts(t: nat, a: Action, m: Shared, pc: Pc, m': Shared, pc': Pc, spawn: seq<Pc>, v: Service)
    requires SharedOk(m) && PcOk(m, pc) && EvictOk(m, pc) && Removing(pc) == Some(v) && pc.StopClean?
    requires Step(t, a, m, pc, m', pc', spawn)
    ensures EvictOk(m', pc') && Removing(pc') == Some(v)
  {
    hide StartStep, ClientStep, CleanUp, SharedOk, ContOk;
    CleanUpLeaves(m, v, pc.i);
  }

  lemma UnlockEvicts(t: nat, a: Action, m: Shared, pc: Pc, m': Shared, pc': Pc, spawn: seq<Pc>, v: Service)
    requires EvictOk(m, pc) && Removing(pc) == Some(v) && pc.Unlocking? && Step(t, a, m, pc, m', pc', spawn)
    ensures EvictOk(m', pc') && pc'.Starting? && pc'.phase == Pass(true) && v !in m'.running
  {
    hide StartStep, ClientStep, Free, Resume;
    UnlockMild(m, pc.i, pc.after);
  }

  /** The goroutine's own steps through a stop. */
  lemma StopEvicts(t: nat, a: Action, m: Shared, pc: Pc, m': Shared, pc': Pc, spawn: seq<Pc>, v: Service)
    requires SharedOk(m) && PcOk(m, pc) && EvictOk(m, pc) && Removing(pc) == Some(v)
    requires Step(t, a, m, pc, m', pc', spawn) && a != Kill(false)
    ensures EvictOk(m', pc')
    ensures Removing(pc') == Some(v) || (pc'.Starting? && pc'.phase == Pass(true) && v !in m'.running)
  {
    hide Step, SharedOk, PcOk, EvictOk;
    if pc.StopLookup? {
      LookupEvicts(t, a, m, pc, m', pc', spawn, v);
    } else if pc.StopClean? {
      CleanEvicts(t, a, m, pc, m', pc', spawn, v);
    } else if pc.Unlocking? {
      UnlockEvicts(t, a, m, pc, m', pc', spawn, v);
    } else {
      LockEvicts(t, a, m, pc, m', pc', spawn, v);
    }
  }

  lemma AcquireRunning(m: Shared, i: nat, t: nat)
    requires i < |m.instances|
    ensures Acquire(m, i, t).running == m.running
  {
  }

  /** A reservation chooses a victim only where a resource is missing, and a least recently used one. */
  ghost predicate Chooses(a: Action, m: Shared, pc: Pc, m': Shared, pc': Pc) {
    && a.EvictPick? && pc.Starting? && pc.phase.Lacking? && IsVictim(m, pc.svc, pc.phase.r, a.now, a.v)
    && m' == m && pc' == StopLookup(a.v, AfterEvict(pc.svc, pc.b))
  }

  lemma LoopPicks(t: nat, a: Action, m: Shared, s: Service, b: nat, phase: Phase, m': Shared, pc': Pc, spawn: seq<Pc>)
    requires b < |m.instances| && StartStep(t, a, m, s, b, phase, m', pc', spawn)
    requires phase.Pass? || phase.Pending? || phase.PendingDone? || phase.Parking? || phase.Waiting? || phase.Leaving?
    ensures pc'.Starting? && !a.EvictPick?
  {
    hide IsVictim, Eligible, PassCommits, PassAsks, PassLacks, FreshChannels, Asked, Unregister, Register, Commit;
  }

  lemma StartPicks(t: nat, a: Action, m: Shared, s: Service, b: nat, phase: Phase, m': Shared, pc': Pc, spawn: seq<Pc>)
    requires b < |m.instances| && StartStep(t, a, m, s, b, phase, m', pc', spawn)
    ensures Chooses(a, m, Starting(s, b, phase), m', pc')
            || (!a.EvictPick? && (pc'.Starting? || (pc'.Unlocking? && !pc'.after.ToCont?)))
  {
    if phase.Lacking? {
      hide IsVictim, Eligible;
    } else if phase.Pass? || phase.Pending? || phase.PendingDone? || phase.Parking? || phase.Waiting?
              || phase.Leaving? {
      hide StartStep;
      LoopPicks(t, a, m, s, b, phase, m', pc', spawn);
    } else {
      hide StartStep;
    }
  }

  lemma LockPicksNot(t: nat, a: Action, m: Shared, pc: Pc, m': Shared, pc': Pc, spawn: seq<Pc>)
    requires ClientStep(t, a, m, pc, m', pc', spawn) && (pc.Trying? || pc.Queued? || pc.Dequeued? || pc.Tracking?)
    ensures !a.EvictPick? && Removing(pc') == None && EvictOk(m', pc')
    ensures pc'.Starting? ==> pc'.phase == Pass(true)
  {
    hide Acquire, TouchIf;
  }

  lemma RequestPicksNot(t: nat, a: Action, m: Shared, pc: Pc, m': Shared, pc': Pc, spawn: seq<Pc>)
    requires ClientStep(t, a, m, pc, m', pc', spawn)
    requires pc.Notifying? || pc.LookingUp? || pc.Dialing? || pc.Restarting? || pc.Inserting? || pc.Connected?
             || pc.Proxying?
    ensures !a.EvictPick? && Removing(pc') == None && EvictOk(m', pc')
    ensures pc'.Starting? ==> pc'.phase == Pass(true)
  {
    hide TouchIf, Insert, Broadcast;
  }

  lemma ClientPicksNot(t: nat, a: Action, m: Shared, pc: Pc, m': Shared, pc': Pc, spawn: seq<Pc>)
    requires ClientStep(t, a, m, pc, m', pc', spawn)
    ensures !a.EvictPick? && Removing(pc') == None && EvictOk(m', pc')
    ensures pc'.Starting? ==> pc'.phase == Pass(true)
  {
    assert pc.Arriving? || pc.Entering? || pc.Departing? || pc.GivingUp? || pc.Trying? || pc.Queued? || pc.Dequeued?
           || pc.Tracking? || pc.Notifying? || pc.LookingUp? || pc.Dialing? || pc.Restarting? || pc.Inserting?
           || pc.Connected? || pc.Proxying?;
    hide *;
    if pc.Arriving? || pc.Entering? || pc.Departing? || pc.GivingUp? {
    } else if pc.Trying? || pc.Queued? || pc.Dequeued? || pc.Tracking? {
      LockPicksNot(t, a, m, pc, m', pc', spawn);
    } else {
      RequestPicksNot(t, a, m, pc, m', pc', spawn);
    }
  }

  lemma StopPicksNot(t: nat, a: Action, m: Shared, pc: Pc, m': Shared, pc': Pc, spawn: seq<Pc>)
    requires Step(t, a, m, pc, m', pc', spawn) && Removing(pc) == None
    requires pc.StopLookup? || pc.StopWait? || pc.StopHold? || pc.StopClean?
    ensures !a.EvictPick? && Removing(pc') == None && EvictOk(m', pc')
  {
    hide StartStep, ClientStep, CleanUp, Resume, Acquire;
  }

  lemma OtherPicksNot(t: nat, a: Action, m: Shared, pc: Pc, m': Shared, pc': Pc, spawn: seq<Pc>)
    requires Step(t, a, m, pc, m', pc', spawn) && Removing(pc) == None
    requires pc.Unlocking? || pc.IdleFired? || pc.Reaping? || pc.Reaped? || pc.Returning?
    ensures !a.EvictPick? && Removing(pc') == None && EvictOk(m', pc')
  {
    hide StartStep, ClientStep, CleanUp, Resume, Free, GiveBack, CanBeStopped;
  }

  /** Outside a stop, only the choice of a victim leads into one. */
  lemma OnlyPicksRemove(t: nat, a: Action, m: Shared, pc: Pc, m': Shared, pc': Pc, spawn: seq<Pc>)
    requires Step(t, a, m, pc, m', pc', spawn) && Removing(pc) == None
    ensures EvictOk(m', pc')
    ensures Chooses(a, m, pc, m', pc') || (!a.EvictPick? && Removing(pc') == None)
  {
    hide StartStep, ClientStep;
    if pc.Starting? {
      StartPicks(t, a, m, pc.svc, pc.b, pc.phase, m', pc', spawn);
    } else if pc.StopLookup? || pc.StopWait? || pc.StopHold? || pc.StopClean? {
      hide Step;
      StopPicksNot(t, a, m, pc, m', pc', spawn);
    } else if pc.Unlocking? || pc.IdleFired? || pc.Reaping? || pc.Reaped? || pc.Returning? {
      hide Step;
      OtherPicksNot(t, a, m, pc, m', pc', spawn);
    } else {
      ClientPicksNot(t, a, m, pc, m', pc', spawn);
    }
  }

  // ---------------------------------------------------------------- stretches of a run

  ghost predicate Tracked(s: State, t: nat) {
    t < |s.threads| && EvictOk(s.m, s.threads[t])
  }

  predicate Picks(l: Label, t: nat) {
    l.Do? && l.t == t && l.a.EvictPick?
  }

  lemma SameShrinks(m: Shared, m': Shared)
    requires m'.running == m.running
    ensures Shrinks(m, m')
  {
  }

  lemma ThreadFacts(s: State, t: nat)
    requires Inv(s) && t < |s.threads|
    ensures SharedOk(s.m) && PcOk(s.m, s.threads[t])
  {
    assert ThreadOk(s.m, t, s.threads[t]);
    hide SharedOk, PcOk, Books, HoldersExist, Known, HoldsOk;
  }

  /** An own step: only a choice leads into a stop, and a stop leads on or out of the registry. */
  lemma OwnTracked(s: State, a: Action, s': State, t: nat)
    requires Inv(s) && Next(s, Do(t, a), s') && Tracked(s, t) && Orderly(Do(t, a), t)
    ensures Tracked(s', t) && Shrinks(s.m, s'.m)
    ensures Removing(s.threads[t]).Some? ==>
              Removing(s'.threads[t]) == Removing(s.threads[t])
              || (s'.threads[t].Starting? && s'.threads[t].phase == Pass(true)
                  && Removing(s.threads[t]).value !in s'.m.running)
  {
    var pc, pc', spawn := s.threads[t], s'.threads[t], s'.threads[|s.threads|..];
    assert Step(t, a, s.m, pc, s'.m, pc', spawn);
    assert SharedOk(s.m) && PcOk(s.m, pc) by { ThreadFacts(s, t); }
    hide Inv, Step, SharedOk, PcOk, Chooses, EvictOk;
    StepRunning(t, a, s.m, pc, s'.m, pc', spawn);
    if v: Service :| Removing(pc) == Some(v) {
      StopEvicts(t, a, s.m, pc, s'.m, pc', spawn, v);
    } else {
      OnlyPicksRemove(t, a, s.m, pc, s'.m, pc', spawn);
    }
  }

  // ---------------------------------------------------------------- what every run satisfies

  /** How many victims `t` chooses in the steps from `i` to `j`. */
  function Picked(labels: seq<Label>, i: nat, j: nat, t: nat): nat
    requires i <= j <= |labels|
  {
    if i == j then 0 else Picked(labels, i, j - 1, t) + if Picks(labels[j - 1], t) then 1 else 0
  }

  /** No service is started between `i` and `j`, and none of `t`'s kills fails. */
  ghost predicate Quiet(labels: seq<Label>, i: nat, j: nat, t: nat) {
    i <= j <= |labels| && forall k :: i <= k < j ==> Orderly(labels[k], t)
  }

  lemma QuietStep(run: seq<State>, labels: seq<Label>, k: nat, t: nat)
    requires IsRun(run, labels) && k < |labels| && Tracked(run[k], t) && Orderly(labels[k], t)
    ensures Tracked(run[k + 1], t) && Shrinks(run[k].m, run[k + 1].m)
    ensures Removing(run[k].threads[t]).Some? ==>
              Removing(run[k + 1].threads[t]) == Removing(run[k].threads[t])
              || (run[k + 1].threads[t].Starting? && run[k + 1].threads[t].phase == Pass(true)
                  && Removing(run[k].threads[t]).value !in run[k + 1].m.running)
  {
    RunInv(run, labels, k);
    assert Next(run[k], labels[k], run[k + 1]);
    hide Inv, IsRun, Shrinks;
    if labels[k].Do? && labels[k].t == t {
      hide Next;
      OwnTracked(run[k], labels[k].a, run[k + 1], t);
    } else {
      var s, s', l := run[k], run[k + 1], labels[k];
      assert t < |s'.threads| && s'.threads[t] == s.threads[t] && Shrinks(s.m, s'.m) by {
        hide Step, Occur;
        if l.Do? {
          StepRunning(l.t, l.a, s.m, s.threads[l.t], s'.m, s'.threads[l.t], s'.threads[|s.threads|..]);
        } else {
          EventRunning(l.e, s.m, s'.m, s'.threads[|s.threads|..]);
          SameShrinks(s.m, s'.m);
        }
      }
      EvictStays(s.m, s'.m, s.threads[t]);
    }
  }

  lemma {:induction false} QuietShrinks(run: seq<State>, labels: seq<Label>, i: nat, j: nat, t: nat)
    requires IsRun(run, labels) && Quiet(labels, i, j, t) && Tracked(run[i], t)
    ensures Tracked(run[j], t) && Shrinks(run[i].m, run[j].m)
  {
    hide *;
    QuietRange(run, labels, i, j, t);
    if i == j {
      SameShrinks(run[i].m, run[j].m);
    } else {
      QuietShort(labels, i, j, t);
      QuietShrinks(run, labels, i, j - 1, t);
      QuietStep(run, labels, j - 1, t);
      ShrinksTrans(run[i].m, run[j - 1].m, run[j].m);
    }
  }

  lemma QuietRange(run: seq<State>, labels: seq<Label>, i: nat, j: nat, t: nat)
    requires IsRun(run, labels) && Quiet(labels, i, j, t)
    ensures i <= j <= |labels| && |run| == |labels| + 1
  {
    hide Init, Next, Orderly;
  }

  lemma QuietShort(labels: seq<Label>, i: nat, j: nat, t: nat)
    requires Quiet(labels, i, j, t) && i < j
    ensures Quiet(labels, i, j - 1, t) && Orderly(labels[j - 1], t)
  {
    hide Orderly;
  }

  /** `t` is not in `startService` itself from `i` to `j`. */
  ghost predicate Away(run: seq<State>, i: nat, j: int, t: nat) {
    forall k :: i <= k <= j && k < |run| && t < |run[k].threads| ==> !run[k].threads[t].Starting?
  }

  /** From its choice to the return to a pass, an eviction takes its victim out of the registry, and
      the other goroutines' moves in between only take more out. */
  lemma EvictionRemoves(run: seq<State>, labels: seq<Label>, i: nat, j: nat, t: nat)
    requires IsRun(run, labels) && i < j && Quiet(labels, i, j, t) && Picks(labels[i], t)
    requires t < |run[i].threads| && run[i].threads[t].Starting? && t < |run[j].threads| && run[j].threads[t].Starting?
    requires Away(run, i + 1, j - 1, t)
    ensures run[j].threads[t].phase == Pass(true)
    ensures labels[i].a.v in run[i].m.running && labels[i].a.v !in run[j].m.running
    ensures Shrinks(run[i].m, run[j].m) && |run[j].m.running| < |run[i].m.running|
  {
    Removes(run, labels, i, j, t, labels[i].a.v);
    QuietShrinks(run, labels, i, j, t);
    hide *;
    assert |run[j].m.running| < |run[i].m.running| by {
      Fewer(run[j].m.running.Keys, run[i].m.running.Keys - {labels[i].a.v});
      assert |run[j].m.running.Keys| == |run[j].m.running| && |run[i].m.running.Keys| == |run[i].m.running|;
    }
  }

  lemma Removes(run: seq<State>, labels: seq<Label>, i: nat, j: nat, t: nat, v: Service)
    requires IsRun(run, labels) && |run| == |labels| + 1 && i < j <= |labels|
    requires Orderly(labels[i], t) && Orderly(labels[j - 1], t) && (i + 1 < j ==> Quiet(labels, i + 1, j - 1, t))
    requires Picks(labels[i], t) && labels[i].a.v == v && Tracked(run[i], t) && Away(run, i + 1, j - 1, t)
    requires t < |run[j].threads| && run[j].threads[t].Starting?
    ensures v in run[i].m.running && run[j].threads[t].phase == Pass(true) && v !in run[j].m.running
  {
    hide *;
    assert v in run[i].m.running && Tracked(run[i + 1], t)
           && t < |run[i + 1].threads| && Removing(run[i + 1].threads[t]) == Some(v) by {
      hide IsRun, Tracked, EvictOk, Shrinks, Orderly, Chooses;
      PickStarts(run, labels, i, t);
      QuietStep(run, labels, i, t);
    }
    if j == i + 1 {
      SomeIsStop(run[j], t, v);
    } else {
      StopsIs(run[i + 1], t, v);
      StillRemoving(run, labels, i + 1, j - 1, t, v);
      StopsIs(run[j - 1], t, v);
      EvictionEnds(run, labels, j - 1, t, v);
    }
  }

  lemma StopsIs(s: State, t: nat, v: Service)
    ensures Stops(s, t, v) <==> Tracked(s, t) && t < |s.threads| && Removing(s.threads[t]) == Some(v)
  {
  }

  lemma SomeIsStop(s: State, t: nat, v: Service)
    requires t < |s.threads| && Removing(s.threads[t]) == Some(v)
    ensures !s.threads[t].Starting?
  {
  }

  lemma EvictionEnds(run: seq<State>, labels: seq<Label>, k: nat, t: nat, v: Service)
    requires IsRun(run, labels) && k < |labels| && Tracked(run[k], t) && Orderly(labels[k], t)
    requires t < |run[k].threads| && Removing(run[k].threads[t]) == Some(v)
    requires t < |run[k + 1].threads| && run[k + 1].threads[t].Starting?
    ensures run[k + 1].threads[t].phase == Pass(true) && v !in run[k + 1].m.running
  {
    hide IsRun, Tracked, EvictOk, Shrinks, Orderly;
    QuietStep(run, labels, k, t);
  }

  /** The choice: the victim is registered, uses the missing resource, and was least recently used. */
  lemma PickStarts(run: seq<State>, labels: seq<Label>, i: nat, t: nat)
    requires IsRun(run, labels) && i < |labels| && Picks(labels[i], t)
    ensures t < |run[i].threads| && t < |run[i + 1].threads|
    ensures Chooses(labels[i].a, run[i].m, run[i].threads[t], run[i + 1].m, run[i + 1].threads[t])
    ensures labels[i].a.v in run[i].m.running && Removing(run[i + 1].threads[t]) == Some(labels[i].a.v)
    ensures run[i].m.cfg.Need(labels[i].a.v, run[i].threads[t].phase.r) != 0
  {
    assert Next(run[i], labels[i], run[i + 1]);
    var s, s', a := run[i], run[i + 1], labels[i].a;
    assert Step(t, a, s.m, s.threads[t], s'.m, s'.threads[t], s'.threads[|s.threads|..]);
    hide IsRun, Next, Step, Chooses;
  }

  /** The stop of `v` is under way. */
  ghost predicate Stops(s: State, t: nat, v: Service) {
    Tracked(s, t) && Removing(s.threads[t]) == Some(v)
  }

  lemma {:induction false} StillRemoving(run: seq<State>, labels: seq<Label>, i: nat, j: nat, t: nat, v: Service)
    requires IsRun(run, labels) && Quiet(labels, i, j, t) && Stops(run[i], t, v) && Away(run, i, j, t)
    ensures Stops(run[j], t, v)
  {
    hide *;
    QuietRange(run, labels, i, j, t);
    if i < j {
      QuietShort(labels, i, j, t);
      AwayShort(run, i, j, t);
      StillRemoving(run, labels, i, j - 1, t, v);
      RemovingStep(run, labels, j - 1, t, v);
    }
  }

  lemma AwayShort(run: seq<State>, i: nat, j: nat, t: nat)
    requires Away(run, i, j, t) && i < j < |run|
    ensures Away(run, i, j - 1, t) && (t < |run[j].threads| ==> !run[j].threads[t].Starting?)
  {
  }

  lemma RemovingStep(run: seq<State>, labels: seq<Label>, k: nat, t: nat, v: Service)
    requires IsRun(run, labels) && k < |labels| && Stops(run[k], t, v) && Orderly(labels[k], t)
    requires t < |run[k + 1].threads| ==> !run[k + 1].threads[t].Starting?
    ensures Stops(run[k + 1], t, v)
  {
    hide IsRun, EvictOk, Shrinks, Orderly, Removing;
    QuietStep(run, labels, k, t);
  }

  // ---------------------------------------------------------------- where a choice comes from

  /** `pc` is where the loop looks for a victim, or where it goes on to wait. */
  predicate Seeking(pc: Pc) {
    pc.Starting? && (pc.phase.Lacking? || pc.phase.Parking?)
  }

  /** The step that led to `pc'`: a pass that found `r` missing, or a search that found nobody. */
  ghost predicate Seeks(a: Action, m: Shared, pc: Pc, pc': Pc) {
    && pc.Starting? && pc'.Starting? && pc'.svc == pc.svc && pc'.b == pc.b
    && if pc'.phase.Lacking? then
         a == PassLack(pc'.phase.r) && pc.phase.Pass? && PassLacks(m, pc.svc, pc.phase.recheck, pc'.phase.r)
       else
         && pc'.phase.Parking? && pc.phase == Lacking(pc'.phase.r) && a.EvictNone?
         && forall v :: !Eligible(m, pc.svc, pc'.phase.r, a.now, v)
  }

  lemma PassSeeks(a: Action, m: Shared, s: Service, b: nat, recheck: bool, m': Shared, pc': Pc)
    requires b < |m.instances| && PassStep(a, m, s, b, recheck, m', pc') && Seeking(pc')
    ensures Seeks(a, m, Starting(s, b, Pass(recheck)), pc')
  {
    hide PassCommits, PassAsks, PassLacks, FreshChannels, Asked, Unregister, Commit;
  }

  lemma StartSeeks(t: nat, a: Action, m: Shared, s: Service, b: nat, phase: Phase, m': Shared, pc': Pc, spawn: seq<Pc>)
    requires b < |m.instances| && StartStep(t, a, m, s, b, phase, m', pc', spawn) && Seeking(pc')
    ensures Seeks(a, m, Starting(s, b, phase), pc')
  {
    hide *;
    if phase.Pass? {
      StartPasses(t, a, m, s, b, phase, m', pc', spawn);
      PassSeeks(a, m, s, b, phase.recheck, m', pc');
    } else if phase.Lacking? {
      LackingParks(t, a, m, s, b, phase, m', pc', spawn);
    } else {
      RestSeeksNot(t, a, m, s, b, phase, m', pc', spawn);
    }
  }

  lemma StartPasses(t: nat, a: Action, m: Shared, s: Service, b: nat, phase: Phase, m': Shared, pc': Pc, spawn: seq<Pc>)
    requires b < |m.instances| && StartStep(t, a, m, s, b, phase, m', pc', spawn) && phase.Pass?
    ensures PassStep(a, m, s, b, phase.recheck, m', pc') && phase == Pass(phase.recheck)
  {
    hide PassStep;
  }

  lemma LackingParks(t: nat, a: Action, m: Shared, s: Service, b: nat, phase: Phase, m': Shared, pc': Pc,
                     spawn: seq<Pc>)
    requires b < |m.instances| && StartStep(t, a, m, s, b, phase, m', pc', spawn) && phase.Lacking? && Seeking(pc')
    ensures Seeks(a, m, Starting(s, b, phase), pc')
  {
    hide IsVictim, Eligible;
  }

  lemma PendingSeeksNot(a: Action, m: Shared, s: Service, b: nat, chans: map<Resource, nat>, todo: set<Resource>,
                        m': Shared, pc': Pc)
    requires PendingStep(a, m, s, b, chans, todo, m', pc')
    ensures !Seeking(pc')
  {
  }

  lemma RestSeeksNot(t: nat, a: Action, m: Shared, s: Service, b: nat, phase: Phase, m': Shared, pc': Pc,
                     spawn: seq<Pc>)
    requires b < |m.instances| && StartStep(t, a, m, s, b, phase, m', pc', spawn) && !phase.Pass? && !phase.Lacking?
    ensures !Seeking(pc')
  {
    hide IsVictim, Eligible, PassStep, PendingStep, Unregister, Enlist, CleanUp, GiveBack, MakeReady, Mark,
         SetCommand, Take;
    if phase.Pending? {
      PendingSeeksNot(a, m, s, b, phase.chans, phase.todo, m', pc');
    }
  }

  lemma StopSeeksNot(t: nat, a: Action, m: Shared, pc: Pc, m': Shared, pc': Pc, spawn: seq<Pc>)
    requires Step(t, a, m, pc, m', pc', spawn)
    requires pc.StopLookup? || pc.StopWait? || pc.StopHold? || pc.StopClean? || pc.Unlocking? || pc.IdleFired?
             || pc.Reaping? || pc.Reaped? || pc.Returning?
    ensures !Seeking(pc')
  {
    hide StartStep, ClientStep, CleanUp, Resume, Free, Acquire, GiveBack, CanBeStopped;
  }

  lemma StepSeeks(t: nat, a: Action, m: Shared, pc: Pc, m': Shared, pc': Pc, spawn: seq<Pc>)
    requires Step(t, a, m, pc, m', pc', spawn) && Seeking(pc')
    ensures Seeks(a, m, pc, pc')
  {
    hide StartStep, ClientStep, Seeks;
    if pc.Starting? {
      StartSeeks(t, a, m, pc.svc, pc.b, pc.phase, m', pc', spawn);
    } else if pc.StopLookup? || pc.StopWait? || pc.StopHold? || pc.StopClean? || pc.Unlocking? || pc.IdleFired?
              || pc.Reaping? || pc.Reaped? || pc.Returning? {
      hide Step;
      StopSeeksNot(t, a, m, pc, m', pc', spawn);
    } else {
      ClientPicksNot(t, a, m, pc, m', pc', spawn);
    }
  }

  /** A goroutine seeking a victim, or about to wait, came there by a step of its own. */
  lemma {:induction false} SeekOrigin(run: seq<State>, labels: seq<Label>, k: nat, t: nat) returns (p: nat)
    requires IsRun(run, labels) && k < |run| && t < |run[k].threads| && Seeking(run[k].threads[t])
    ensures p < k && labels[p].Do? && labels[p].t == t && t < |run[p].threads|
    ensures Seeks(labels[p].a, run[p].m, run[p].threads[t], run[k].threads[t])
    ensures forall q :: p < q <= k ==> t < |run[q].threads| && run[q].threads[t] == run[k].threads[t]
  {
    hide Seeks, Seeking, Init, Next;
    NotAtStart(run, labels, k, t);
    var s, l, s' := run[k - 1], labels[k - 1], run[k];
    assert Next(s, l, run[k - 1 + 1]);
    if l.Do? && l.t == t {
      p := k - 1;
      OwnSeeks(s, l.a, s', t);
    } else {
      SeekerBegan(s'.threads[t]);
      ThreadStays(s, l, s', t);
      p := SeekOrigin(run, labels, k - 1, t);
    }
  }

  lemma SeekerBegan(pc: Pc)
    requires Seeking(pc)
    ensures !pc.Arriving? && !pc.Reaping? && !pc.IdleFired?
  {
  }

  lemma NotAtStart(run: seq<State>, labels: seq<Label>, k: nat, t: nat)
    requires IsRun(run, labels) && k < |run| && t < |run[k].threads|
    ensures k > 0
  {
  }

  lemma OwnSeeks(s: State, a: Action, s': State, t: nat)
    requires Next(s, Do(t, a), s') && t < |s'.threads| && Seeking(s'.threads[t])
    ensures t < |s.threads| && Seeks(a, s.m, s.threads[t], s'.threads[t])
  {
    hide Step, Seeks, Seeking;
    StepSeeks(t, a, s.m, s.threads[t], s'.m, s'.threads[t], s'.threads[|s.threads|..]);
  }

  /** Nobody else moves a goroutine's counter, once it has begun. */
  lemma ThreadStays(s: State, l: Label, s': State, t: nat)
    requires Next(s, l, s') && (l.Do? ==> l.t != t) && t < |s'.threads|
    requires !s'.threads[t].Arriving? && !s'.threads[t].Reaping? && !s'.threads[t].IdleFired?
    ensures t < |s.threads| && s'.threads[t] == s.threads[t]
  {
    var spawn := s'.threads[|s.threads|..];
    if t >= |s.threads| {
      assert s'.threads[t] == spawn[t - |s.threads|];
      if l.Do? {
        SpawnKinds(l.t, l.a, s.m, s.threads[l.t], s'.m, s'.threads[l.t], spawn);
      } else {
        hide Published, Measured;
      }
    }
  }

  predicate Fails(l: Label, t: nat) {
    l == Do(t, Kill(false))
  }

  /** How many kills of `t` fail in the steps from `i` to `j`. */
  function Failed(labels: seq<Label>, i: nat, j: nat, t: nat): nat
    requires i <= j <= |labels|
  {
    if i == j then 0 else Failed(labels, i, j - 1, t) + if Fails(labels[j - 1], t) then 1 else 0
  }
}
