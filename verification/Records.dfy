/** What every step does to the record of every service instance. */
module Records {
  import opened Model
  import opened Machine
  import opened Ledger
  import opened Reachable

  /** The instance that a step records a use of, or -1. */
  function UsedBy(m: Shared, a: Action, pc: Pc): int {
    if ((pc.Tracking? && a.Track?) || (pc.Connected? && a.Used?) || (pc.Proxying? && a.Forwarded?))
       && a.j < |m.instances| && m.instances[a.j].svc == pc.svc then a.j else -1
  }

  /** The instance whose start is at `pc`, or -1. */
  function StartOf(pc: Pc): int {
    if pc.Starting? then pc.b else -1
  }

  /** The instance whose record a step writes, or -1. */
  function Written(m: Shared, a: Action, pc: Pc, pc': Pc): int {
    match a
    case StopFind => StartOf(pc')
    case Unlock => StartOf(pc')
    case StopCleanUp => if pc.StopClean? then pc.i else -1
    case Reap => if pc.Reaped? && pc.svc in m.cfg.stopOnExit then pc.i else -1
    case Confirm => StartOf(pc)
    case SpawnRecord => StartOf(pc)
    case Ready => StartOf(pc)
    case Refuse => StartOf(pc)
    case SpawnCleanUp => StartOf(pc)
    case _ => UsedBy(m, a, pc)
  }

  /** The clean-ups: by a start that fails, by a stop, and by the monitor of the process. */
  predicate Cleans(a: Action) {
    a.Refuse? || a.SpawnCleanUp? || a.StopCleanUp? || a.Reap?
  }

  /** A record before and after a step that writes it or not, field by field. The mutex and the commit are left
      aside: `Steps` and `Ledger` are about them. */
  predicate Developed(a: Action, x: Instance, y: Instance, written: bool, checks: map<Resource, int>) {
    && y.svc == x.svc
    && y.lastUsed == (if written && (a.Track? || a.Used? || a.Forwarded?) then a.now else x.lastUsed)
    && y.since == (if written && (a.StopFind? || a.Unlock?) then checks else x.since)
    && y.waiting == (x.waiting && !(written && a.Confirm?))
    && y.marked == (x.marked || (written && a.Confirm?))
    && y.command == (x.command || (written && a.SpawnRecord?))
    && y.ready == (x.ready || (written && a.Ready?))
    && y.released == (x.released || (written && Cleans(a)))
    && y.timer == ((written && a.Ready?) || (x.timer && (y.released ==> x.released)))
  }

  ghost predicate Develop(t: nat, a: Action, m: Shared, pc: Pc, m': Shared, pc': Pc) {
    && m'.checks == m.checks && |m.instances| <= |m'.instances| <= |m.instances| + 1
    && (forall i :: 0 <= i < |m.instances| ==>
          Developed(a, m.instances[i], m'.instances[i], i == Written(m, a, pc, pc'), m.checks))
    && (|m.instances| < |m'.instances| ==>
          a.Create? && pc.Inserting? && m'.instances[|m.instances|] == Newborn(m, pc.svc, t, a.now))
  }

  // ---------------------------------------------------------------- one record at most

  lemma NoneDevelops(t: nat, a: Action, m: Shared, pc: Pc, m': Shared, pc': Pc)
    requires m'.instances == m.instances && m'.checks == m.checks
    requires Written(m, a, pc, pc') == -1 || Written(m, a, pc, pc') >= |m.instances|
    ensures Develop(t, a, m, pc, m', pc')
  {
    hide Written;
  }

  lemma OneDevelops(t: nat, a: Action, m: Shared, pc: Pc, m': Shared, pc': Pc, i: nat, y: Instance)
    requires i < |m.instances| && m'.instances == m.instances[i := y] && m'.checks == m.checks
    requires Written(m, a, pc, pc') == -1 || Written(m, a, pc, pc') == i
    requires Developed(a, m.instances[i], y, i == Written(m, a, pc, pc'), m.checks)
    ensures Develop(t, a, m, pc, m', pc')
  {
    hide Written;
  }

  lemma CleanUpDevelops(t: nat, a: Action, m: Shared, pc: Pc, m1: Shared, pc': Pc, i: nat)
    requires i < |m.instances| && m1.instances == m.instances && m1.checks == m.checks
    requires Written(m, a, pc, pc') == i && Cleans(a)
    ensures Develop(t, a, m, pc, CleanUp(m1, i), pc')
  {
    hide Written, Develop;
    var x := m.instances[i];
    if x.released {
      assert m1.instances == m.instances[i := x];
      OneDevelops(t, a, m, pc, m1, pc', i, x);
    } else {
      CleanUpLedger(m1, i);
      OneDevelops(t, a, m, pc, CleanUp(m1, i), pc', i, x.(released := true, timer := false));
    }
  }

  // ---------------------------------------------------------------- the steps

  lemma PassDevelops(t: nat, a: Action, m: Shared, s: Service, b: nat, recheck: bool, m': Shared, pc': Pc,
                     spawn: seq<Pc>)
    requires b < |m.instances| && StartStep(t, a, m, s, b, Pass(recheck), m', pc', spawn)
    ensures Develop(t, a, m, Starting(s, b, Pass(recheck)), m', pc')
  {
    assert PassStep(a, m, s, b, recheck, m', pc') by { hide PassStep; }
    hide StartStep, PassCommits, PassLacks, PassAsks, FreshChannels, Develop, Unregister, Plus;
    var pc := Starting(s, b, Pass(recheck));
    if a.PassCommit? {
      OneDevelops(t, a, m, pc, m', pc', b, m.instances[b].(committed := true));
    } else {
      NoneDevelops(t, a, m, pc, m', pc');
    }
  }

  lemma LoopDevelops(t: nat, a: Action, m: Shared, s: Service, b: nat, phase: Phase, m': Shared, pc': Pc,
                     spawn: seq<Pc>)
    requires b < |m.instances| && StartStep(t, a, m, s, b, phase, m', pc', spawn)
    requires phase.Pending? || phase.PendingDone? || phase.Lacking? || phase.Parking? || phase.Waiting?
             || phase.Leaving?
    ensures Develop(t, a, m, Starting(s, b, phase), m', pc')
  {
    hide IsVictim, Eligible, PassStep, CleanUp, MakeReady, SetInstance, Develop, Unregister, Register;
    NoneDevelops(t, a, m, Starting(s, b, phase), m', pc');
  }

  lemma RunDevelops(t: nat, a: Action, m: Shared, s: Service, b: nat, phase: Phase, m': Shared, pc': Pc,
                    spawn: seq<Pc>)
    requires b < |m.instances| && StartStep(t, a, m, s, b, phase, m', pc', spawn)
    requires phase.Spawning? || phase.Probing? || phase.Connecting?
    ensures Develop(t, a, m, Starting(s, b, phase), m', pc')
  {
    hide IsVictim, Eligible, PassStep, PendingStep, CleanUp, Develop, MakeReady, Enlist, Take, SetInstance;
    NoneDevelops(t, a, m, Starting(s, b, phase), m', pc');
  }

  lemma CommandDevelops(t: nat, a: Action, m: Shared, s: Service, b: nat, phase: Phase, m': Shared, pc': Pc,
                        spawn: seq<Pc>)
    requires b < |m.instances| && StartStep(t, a, m, s, b, phase, m', pc', spawn)
    requires phase.Reserved? || phase.Spawned?
    ensures Develop(t, a, m, Starting(s, b, phase), m', pc')
  {
    hide IsVictim, Eligible, PassStep, PendingStep, CleanUp, Develop, MakeReady, Enlist, Take;
    var x := m.instances[b];
    OneDevelops(t, a, m, Starting(s, b, phase), m', pc', b,
                if phase.Reserved? then x.(waiting := false, marked := true) else x.(command := true));
  }

  lemma ReadyDevelops(t: nat, a: Action, m: Shared, s: Service, b: nat, m': Shared, pc': Pc, spawn: seq<Pc>)
    requires b < |m.instances| && StartStep(t, a, m, s, b, MakingReady, m', pc', spawn)
    ensures Develop(t, a, m, Starting(s, b, MakingReady), m', pc')
  {
    hide IsVictim, Eligible, PassStep, PendingStep, CleanUp, Develop, Unregister, Enlist, Take, Minus;
    OneDevelops(t, a, m, Starting(s, b, MakingReady), m', pc', b, m.instances[b].(ready := true, timer := true));
  }

  lemma FailDevelops(t: nat, a: Action, m: Shared, s: Service, b: nat, phase: Phase, m': Shared, pc': Pc,
                     spawn: seq<Pc>)
    requires b < |m.instances| && StartStep(t, a, m, s, b, phase, m', pc', spawn)
    requires phase.Refused? || phase.SpawnFailed?
    ensures Develop(t, a, m, Starting(s, b, phase), m', pc')
  {
    hide IsVictim, Eligible, PassStep, PendingStep, CleanUp, Develop, Unregister, Enlist, Take, Minus;
    CleanUpDevelops(t, a, m, Starting(s, b, phase), if phase.Refused? then m else GiveBack(m, s), pc', b);
  }

  lemma StopDevelops(t: nat, a: Action, m: Shared, pc: Pc, m': Shared, pc': Pc, spawn: seq<Pc>)
    requires Step(t, a, m, pc, m', pc', spawn)
    requires pc.StopWait? || pc.StopHold? || pc.IdleFired? || pc.Reaping? || pc.Returning?
    ensures Develop(t, a, m, pc, m', pc')
  {
    hide StartStep, ClientStep, CleanUp, CanBeStopped, Develop, Resume, ResumePc, Free, UnlockedPc, Minus;
    if pc.StopWait? {
      OneDevelops(t, a, m, pc, m', pc', pc.i, m.instances[pc.i].(holder := Some(t)));
    } else {
      NoneDevelops(t, a, m, pc, m', pc');
    }
  }

  lemma CleanDevelops(t: nat, a: Action, m: Shared, pc: Pc, m': Shared, pc': Pc, spawn: seq<Pc>)
    requires Step(t, a, m, pc, m', pc', spawn) && (pc.StopClean? || pc.Reaped?)
    ensures Develop(t, a, m, pc, m', pc')
  {
    hide StartStep, ClientStep, CleanUp, CanBeStopped, Develop, Resume, ResumePc, Free, UnlockedPc, Minus;
    if pc.StopClean? || pc.svc in m.cfg.stopOnExit {
      CleanUpDevelops(t, a, m, pc, m, pc', pc.i);
    } else {
      NoneDevelops(t, a, m, pc, m', pc');
    }
  }

  /** A stop that finds nobody returns to what it was for. */
  lemma LookupDevelops(t: nat, a: Action, m: Shared, pc: Pc, m': Shared, pc': Pc, spawn: seq<Pc>)
    requires Step(t, a, m, pc, m', pc', spawn) && pc.StopLookup?
    ensures Develop(t, a, m, pc, m', pc')
  {
    hide StartStep, ClientStep, CleanUp, CanBeStopped, Minus, Develop, Resume;
    if pc.victim in m.running {
      NoneDevelops(t, a, m, pc, m', pc');
    } else {
      ReturnDevelops(t, a, m, pc, pc.k);
    }
  }

  lemma ReturnDevelops(t: nat, a: Action, m: Shared, pc: Pc, k: Cont)
    requires a.StopFind?
    ensures Develop(t, a, m, pc, Resume(m, k), ResumePc(k))
  {
    hide Develop, Resume;
    ResumeRecord(m, k);
    if k.AfterEvict? && k.b < |m.instances| {
      OneDevelops(t, a, m, pc, Resume(m, k), ResumePc(k), k.b, m.instances[k.b].(since := m.checks));
    } else {
      NoneDevelops(t, a, m, pc, Resume(m, k), ResumePc(k));
    }
  }

  /** A mutex is given back, and a stop returns to what it was for. */
  lemma UnlockDevelops(t: nat, a: Action, m: Shared, pc: Pc, m': Shared, pc': Pc, spawn: seq<Pc>)
    requires Step(t, a, m, pc, m', pc', spawn) && pc.Unlocking?
    ensures Develop(t, a, m, pc, m', pc')
  {
    hide StartStep, ClientStep, CleanUp, CanBeStopped, Minus, Resume, Free;
    var k := if pc.after.ToCont? then pc.after.k else AfterIdle;
    assert Written(m, a, pc, pc') == if k.AfterEvict? then k.b else -1;
    FreeRecord(m, pc.i);
    ResumeRecord(Free(m, pc.i), k);
    hide Written, ResumePc, UnlockedPc;
  }

  lemma FreeRecord(m: Shared, i: nat)
    requires i < |m.instances|
    ensures |Free(m, i).instances| == |m.instances| && Free(m, i).checks == m.checks
    ensures forall j :: 0 <= j < |m.instances| ==>
              Free(m, i).instances[j] == m.instances[j].(holder := Free(m, i).instances[j].holder)
  {
  }

  lemma ResumeRecord(m: Shared, k: Cont)
    ensures Resume(m, k).checks == m.checks
    ensures Resume(m, k).instances
            == if k.AfterEvict? && k.b < |m.instances| then m.instances[k.b := m.instances[k.b].(since := m.checks)]
               else m.instances
  {
  }

  lemma LockDevelops(t: nat, a: Action, m: Shared, pc: Pc, m': Shared, pc': Pc, spawn: seq<Pc>)
    requires ClientStep(t, a, m, pc, m', pc', spawn) && (pc.Trying? || pc.Queued?)
    ensures Develop(t, a, m, pc, m', pc')
  {
    hide Develop;
    if a.TryOk? || a.QueueLock? {
      OneDevelops(t, a, m, pc, m', pc', pc.i, m.instances[pc.i].(holder := Some(t)));
    } else {
      NoneDevelops(t, a, m, pc, m', pc');
    }
  }

  lemma UseDevelops(t: nat, a: Action, m: Shared, pc: Pc, m': Shared, pc': Pc, spawn: seq<Pc>)
    requires ClientStep(t, a, m, pc, m', pc', spawn) && (pc.Tracking? || pc.Connected? || pc.Proxying?)
    ensures Develop(t, a, m, pc, m', pc')
  {
    assert Develop(t, a, m, pc, TouchIf(m, pc.svc, a.j, a.now), pc') by {
      hide Develop;
      var j := UsedBy(m, a, pc);
      if j >= 0 {
        OneDevelops(t, a, m, pc, Touch(m, j, a.now), pc', j, m.instances[j].(lastUsed := a.now));
      } else {
        NoneDevelops(t, a, m, pc, m, pc');
      }
    }
    hide TouchIf, Finds, Develop;
  }

  lemma InsertDevelops(t: nat, a: Action, m: Shared, pc: Pc, m': Shared, pc': Pc, spawn: seq<Pc>)
    requires ClientStep(t, a, m, pc, m', pc', spawn) && pc.Inserting?
    ensures Develop(t, a, m, pc, m', pc')
  {
  }

  lemma RequestDevelops(t: nat, a: Action, m: Shared, pc: Pc, m': Shared, pc': Pc, spawn: seq<Pc>)
    requires ClientStep(t, a, m, pc, m', pc', spawn)
    requires !pc.Tracking? && !pc.Connected? && !pc.Proxying? && !pc.Inserting? && !pc.Trying? && !pc.Queued?
    ensures Develop(t, a, m, pc, m', pc')
  {
    hide Develop, Fill, Listeners, Clamp, StatsOf, AfterCount, OnwardPc, Finds, TouchIf, Insert, Acquire;
    NoneDevelops(t, a, m, pc, m', pc');
  }

  lemma StartDevelops(t: nat, a: Action, m: Shared, pc: Pc, m': Shared, pc': Pc, spawn: seq<Pc>)
    requires Step(t, a, m, pc, m', pc', spawn) && pc.Starting?
    ensures Develop(t, a, m, pc, m', pc')
  {
    assert pc.b < |m.instances| && StartStep(t, a, m, pc.svc, pc.b, pc.phase, m', pc', spawn) by {
      hide StartStep, ClientStep;
    }
    var phase := pc.phase;
    hide *;
    if phase.Pass? {
      PassDevelops(t, a, m, pc.svc, pc.b, phase.recheck, m', pc', spawn);
    } else if phase.Pending? || phase.PendingDone? || phase.Lacking? || phase.Parking? || phase.Waiting?
              || phase.Leaving? {
      LoopDevelops(t, a, m, pc.svc, pc.b, phase, m', pc', spawn);
    } else if phase.Refused? || phase.SpawnFailed? {
      FailDevelops(t, a, m, pc.svc, pc.b, phase, m', pc', spawn);
    } else if phase.Spawning? || phase.Probing? || phase.Connecting? {
      RunDevelops(t, a, m, pc.svc, pc.b, phase, m', pc', spawn);
    } else if phase.MakingReady? {
      ReadyDevelops(t, a, m, pc.svc, pc.b, m', pc', spawn);
    } else {
      CommandDevelops(t, a, m, pc.svc, pc.b, phase, m', pc', spawn);
    }
  }

  /** Every step of every goroutine. */
  lemma StepDevelops(t: nat, a: Action, m: Shared, pc: Pc, m': Shared, pc': Pc, spawn: seq<Pc>)
    requires Step(t, a, m, pc, m', pc', spawn)
    ensures Develop(t, a, m, pc, m', pc')
  {
    hide StartStep, ClientStep, Develop, CanBeStopped, CleanUp, Resume, ResumePc, Free, UnlockedPc, Acquire, GiveBack;
    if pc.Starting? {
      StartDevelops(t, a, m, pc, m', pc', spawn);
    } else if pc.StopLookup? {
      LookupDevelops(t, a, m, pc, m', pc', spawn);
    } else if pc.Unlocking? {
      UnlockDevelops(t, a, m, pc, m', pc', spawn);
    } else if pc.StopWait? || pc.StopHold? || pc.IdleFired? || pc.Reaping? || pc.Returning? {
      StopDevelops(t, a, m, pc, m', pc', spawn);
    } else if pc.StopClean? || pc.Reaped? {
      CleanDevelops(t, a, m, pc, m', pc', spawn);
    } else {
      assert ClientStep(t, a, m, pc, m', pc', spawn);
      hide *;
      if pc.Trying? || pc.Queued? {
        LockDevelops(t, a, m, pc, m', pc', spawn);
      } else if pc.Tracking? || pc.Connected? || pc.Proxying? {
        UseDevelops(t, a, m, pc, m', pc', spawn);
      } else if pc.Inserting? {
        InsertDevelops(t, a, m, pc, m', pc', spawn);
      } else {
        RequestDevelops(t, a, m, pc, m', pc', spawn);
      }
    }
  }

  // ---------------------------------------------------------------- over a run

  /** The instance whose record step `l` writes, or -1. */
  function Writes(s: State, l: Label, s': State): int {
    if l.Do? && l.t < |s.threads| && l.t < |s'.threads| then Written(s.m, l.a, s.threads[l.t], s'.threads[l.t]) else -1
  }

  /** One step, for one record. */
  lemma RecordNext(s: State, l: Label, s': State, i: nat)
    requires Next(s, l, s')
    ensures |s.m.instances| <= |s'.m.instances|
    ensures i < |s.m.instances| ==>
              if l.Do? then Developed(l.a, s.m.instances[i], s'.m.instances[i], i == Writes(s, l, s'), s.m.checks)
              else s'.m.instances[i] == s.m.instances[i]
    ensures |s.m.instances| <= i < |s'.m.instances| ==>
              && l.Do? && l.a.Create? && i == |s.m.instances| && l.t < |s.threads| && s.threads[l.t].Inserting?
              && s'.m.instances[i] == Newborn(s.m, s.threads[l.t].svc, l.t, l.a.now)
    ensures l.Do? ==> s'.m.checks == s.m.checks
  {
    hide Step, Occur, Written, Developed;
    match l
    case Env(e) => EventInstances(e, s.m, s'.m, s'.threads[|s.threads|..]);
    case Do(t, a) => StepDevelops(t, a, s.m, s.threads[t], s'.m, s'.threads[t], s'.threads[|s.threads|..]);
  }

  /** The clean-ups of instance `i`: by its own start when it is refused or its command does not run, by a stop that
      holds it, and by the monitor of its process when the service counts as stopped then. */
  predicate CleansUp(c: Config, a: Action, pc: Pc, i: nat) {
    || (pc.Starting? && pc.b == i && (a.Refuse? || a.SpawnCleanUp?))
    || (pc.StopClean? && pc.i == i && a.StopCleanUp?)
    || (pc.Reaped? && pc.i == i && a.Reap? && pc.svc in c.stopOnExit)
  }

  lemma CleansWritten(m: Shared, a: Action, pc: Pc, pc': Pc, i: nat)
    ensures CleansUp(m.cfg, a, pc, i) <==> Cleans(a) && Written(m, a, pc, pc') == i
  {
    hide UsedBy;
    if Cleans(a) {
      assert Written(m, a, pc, pc')
             == if a.StopCleanUp? then (if pc.StopClean? then pc.i else -1)
                else if a.Reap? then (if pc.Reaped? && pc.svc in m.cfg.stopOnExit then pc.i else -1)
                else StartOf(pc);
    }
    hide Written;
  }

  /** An instance is released by one of its clean-ups, and by nothing else. */
  lemma ReleasedBy(run: seq<State>, labels: seq<Label>, k: nat, i: nat)
    requires IsRun(run, labels) && k < |labels| && i < |run[k].m.instances| && !run[k].m.instances[i].released
    ensures i < |run[k + 1].m.instances|
    ensures run[k + 1].m.instances[i].released
            <==> && labels[k].Do? && labels[k].t < |run[k].threads|
                 && CleansUp(run[k].m.cfg, labels[k].a, run[k].threads[labels[k].t], i)
  {
    assert Next(run[k], labels[k], run[k + 1]);
    hide IsRun, Step, Occur, Written, CleansUp, Cleans;
    RecordNext(run[k], labels[k], run[k + 1], i);
    if labels[k].Do? {
      CleansWritten(run[k].m, labels[k].a, run[k].threads[labels[k].t], run[k + 1].threads[labels[k].t], i);
    }
  }
}
