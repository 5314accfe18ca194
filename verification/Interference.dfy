/** The contract of `Scheduling.Others` is what the step machine's other goroutines do. */
module Interference {
  import opened Model
  import opened Machine
  import opened Invariant
  import opened Operations
  import opened Steps
  import opened Ledger
  import opened Reachable
  import opened Scheduling

  /** A step that is not `me`'s. */
  predicate Foreign(l: Label, me: nat) {
    l.Do? ==> l.t != me
  }

  /** The step that may start a service. */
  predicate Inserts(a: Action, pc: Pc) {
    a.Create? && pc.Inserting?
  }

  /** A step of the monitor of `r`. */
  predicate Monitors(l: Label, r: Resource) {
    match l
    case Env(Measure(q, _)) => q == r
    case Env(Publish(q)) => q == r
    case _ => false
  }

  predicate SameMeasurements(m: Shared, m': Shared) {
    m'.publishing == m.publishing && m'.available == m.available
  }

  // ---------------------------------------------------------------- the registry only shrinks

  /** Except by a start, the registry only loses entries; measurements belong to the monitors. */
  ghost predicate Mild(m: Shared, m': Shared, starts: bool) {
    SameMeasurements(m, m') && (!starts ==> Shrinks(m, m'))
  }

  lemma SameMild(m: Shared, m': Shared, starts: bool)
    requires SameMeasurements(m, m') && m'.running == m.running
    ensures Mild(m, m', starts)
  {
  }

  lemma CleanUpMild(m: Shared, i: nat)
    requires i < |m.instances|
    ensures Mild(m, CleanUp(m, i), false)
  {
    hide Fill, Listeners, Minus;
  }

  lemma ResumeMild(m: Shared, k: Cont)
    ensures Resume(m, k).running == m.running && SameMeasurements(m, Resume(m, k))
  {
    if k.AfterEvict? && k.b < |m.instances| {
      assert Resume(m, k) == SetInstance(m, k.b, m.instances[k.b].(since := m.checks));
    }
    hide Resume;
  }

  lemma PassMild(a: Action, m: Shared, s: Service, b: nat, recheck: bool, m': Shared, pc': Pc)
    requires b < |m.instances| && PassStep(a, m, s, b, recheck, m', pc')
    ensures m'.running == m.running && SameMeasurements(m, m')
  {
    hide PassCommits, PassAsks, PassLacks, FreshChannels, Unregister;
  }

  lemma PendingMild(a: Action, m: Shared, s: Service, b: nat, chans: map<Resource, nat>, todo: set<Resource>,
                    m': Shared, pc': Pc)
    requires PendingStep(a, m, s, b, chans, todo, m', pc')
    ensures m'.running == m.running && SameMeasurements(m, m')
  {
  }

  /** The steps of a reservation. */
  lemma LoopMild(t: nat, a: Action, m: Shared, s: Service, b: nat, phase: Phase, m': Shared, pc': Pc, spawn: seq<Pc>)
    requires b < |m.instances| && StartStep(t, a, m, s, b, phase, m', pc', spawn)
    requires phase.Pass? || phase.Pending? || phase.PendingDone? || phase.Lacking? || phase.Parking? || phase.Waiting?
             || phase.Leaving?
    ensures Mild(m, m', false)
  {
    hide IsVictim, Eligible, CleanUp, PassStep, PendingStep, Unregister, Register, Mild, Mark, SetCommand, GiveBack;
    match phase {
      case Pass(recheck) => PassMild(a, m, s, b, recheck, m', pc');
      case Pending(chans, todo) => PendingMild(a, m, s, b, chans, todo, m', pc');
      case _ =>
    }
    SameMild(m, m', false);
  }

  /** The steps of a start after its reservation. */
  lemma CommandMild(t: nat, a: Action, m: Shared, s: Service, b: nat, phase: Phase, m': Shared, pc': Pc, spawn: seq<Pc>)
    requires b < |m.instances| && StartStep(t, a, m, s, b, phase, m', pc', spawn)
    requires !phase.Pass? && !phase.Pending? && !phase.PendingDone? && !phase.Lacking? && !phase.Parking?
             && !phase.Waiting? && !phase.Leaving?
    ensures Mild(m, m', false)
  {
    hide CleanUp, PassStep, PendingStep, Mild, Minus;
    match phase
    case Refused => CleanUpMild(m, b);
    case SpawnFailed =>
      CleanUpMild(GiveBack(m, s), b);
      MildAfter(m, GiveBack(m, s), m');
    case _ => SameMild(m, m', false);
  }

  lemma MildAfter(m: Shared, m1: Shared, m2: Shared)
    requires m1.running == m.running && SameMeasurements(m, m1) && Mild(m1, m2, false)
    ensures Mild(m, m2, false)
  {
  }

  lemma UnlockMild(m: Shared, i: nat, after: Then)
    requires i < |m.instances|
    ensures Free(m, i).running == m.running && SameMeasurements(m, Free(m, i))
    ensures after.ToCont? ==>
              Resume(Free(m, i), after.k).running == m.running && SameMeasurements(m, Resume(Free(m, i), after.k))
  {
    if after.ToCont? {
      ResumeMild(Free(m, i), after.k);
    }
  }

  lemma StopMild(t: nat, a: Action, m: Shared, pc: Pc, m': Shared, pc': Pc, spawn: seq<Pc>)
    requires Step(t, a, m, pc, m', pc', spawn)
    requires pc.StopLookup? || pc.StopWait? || pc.StopHold? || pc.StopClean?
    ensures Mild(m, m', false)
  {
    hide StartStep, ClientStep, CleanUp, Resume, ResumePc;
    if pc.StopLookup? {
      ResumeMild(m, pc.k);
    } else if pc.StopClean? {
      CleanUpMild(m, pc.i);
    }
  }

  lemma OtherMild(t: nat, a: Action, m: Shared, pc: Pc, m': Shared, pc': Pc, spawn: seq<Pc>)
    requires Step(t, a, m, pc, m', pc', spawn)
    requires pc.Unlocking? || pc.IdleFired? || pc.Reaping? || pc.Reaped? || pc.Returning?
    ensures Mild(m, m', false)
  {
    hide StartStep, ClientStep, CleanUp, Resume, CanBeStopped, UnlockedPc, Free, Minus;
    if pc.Unlocking? {
      UnlockMild(m, pc.i, pc.after);
    } else if pc.Reaped? {
      CleanUpMild(m, pc.i);
    }
  }

  lemma CountMild(m: Shared, s: Service, p: int, w: int)
    ensures Count(m, s, p, w).running == m.running && SameMeasurements(m, Count(m, s, p, w))
  {
  }

  lemma TouchMild(m: Shared, s: Service, j: nat, now: int)
    ensures TouchIf(m, s, j, now).running == m.running && SameMeasurements(m, TouchIf(m, s, j, now))
  {
    var m' := TouchIf(m, s, j, now);
    if j < |m.instances| && m.instances[j].svc == s {
      assert m' == SetInstance(m, j, m.instances[j].(lastUsed := now));
      hide TouchIf;
      assert m'.running == m.running && SameMeasurements(m, m');
    }
  }

  lemma BroadcastMild(m: Shared, rs: set<Resource>, v: bool)
    ensures Broadcast(m, rs, v).running == m.running && SameMeasurements(m, Broadcast(m, rs, v))
  {
    hide Fill, Listeners;
  }

  predicate Counts(pc: Pc) {
    pc.Arriving? || pc.Entering? || pc.Departing? || pc.GivingUp? || pc.Notifying?
  }

  lemma CountsMild(t: nat, a: Action, m: Shared, pc: Pc, m': Shared, pc': Pc, spawn: seq<Pc>)
    requires ClientStep(t, a, m, pc, m', pc', spawn) && Counts(pc)
    ensures SameMeasurements(m, m') && m'.running == m.running
  {
    hide Count, Broadcast, AfterCount, OnwardPc, StatsOf;
    if pc.Notifying? {
      BroadcastMild(m, m.cfg.Requirement(pc.svc).Keys, true);
    } else if pc.Arriving? {
      CountMild(m, pc.svc, 0, 1);
    } else if pc.Entering? {
      CountMild(m, pc.svc, 1, -1);
    } else if pc.Departing? {
      CountMild(m, pc.svc, -1, 0);
    } else {
      CountMild(m, pc.svc, 0, -1);
    }
  }

  lemma TouchesMild(t: nat, a: Action, m: Shared, pc: Pc, m': Shared, pc': Pc, spawn: seq<Pc>)
    requires ClientStep(t, a, m, pc, m', pc', spawn) && (pc.Tracking? || pc.Connected? || pc.Proxying?)
    ensures SameMeasurements(m, m') && m'.running == m.running
  {
    hide TouchIf;
    TouchMild(m, pc.svc, a.j, a.now);
  }

  lemma ConnectsMild(t: nat, a: Action, m: Shared, pc: Pc, m': Shared, pc': Pc, spawn: seq<Pc>)
    requires ClientStep(t, a, m, pc, m', pc', spawn)
    requires !Counts(pc) && !pc.Tracking? && !pc.Connected? && !pc.Proxying?
    ensures SameMeasurements(m, m') && (!Inserts(a, pc) ==> m'.running == m.running)
  {
  }

  lemma StepRunning(t: nat, a: Action, m: Shared, pc: Pc, m': Shared, pc': Pc, spawn: seq<Pc>)
    requires Step(t, a, m, pc, m', pc', spawn)
    ensures Mild(m, m', Inserts(a, pc))
  {
    hide *;
    if pc.Starting? {
      StartMild(t, a, m, pc, m', pc', spawn);
    } else if pc.StopLookup? || pc.StopWait? || pc.StopHold? || pc.StopClean? {
      StopMild(t, a, m, pc, m', pc', spawn);
      Milder(m, m', Inserts(a, pc));
    } else if pc.Unlocking? || pc.IdleFired? || pc.Reaping? || pc.Reaped? || pc.Returning? {
      OtherMild(t, a, m, pc, m', pc', spawn);
      Milder(m, m', Inserts(a, pc));
    } else {
      RequestMild(t, a, m, pc, m', pc', spawn);
    }
  }

  lemma Milder(m: Shared, m': Shared, starts: bool)
    requires Mild(m, m', false)
    ensures Mild(m, m', starts)
  {
  }

  lemma StartMild(t: nat, a: Action, m: Shared, pc: Pc, m': Shared, pc': Pc, spawn: seq<Pc>)
    requires Step(t, a, m, pc, m', pc', spawn) && pc.Starting?
    ensures Mild(m, m', Inserts(a, pc))
  {
    hide StartStep, ClientStep, Mild;
    var phase := pc.phase;
    if phase.Pass? || phase.Pending? || phase.PendingDone? || phase.Lacking? || phase.Parking? || phase.Waiting?
       || phase.Leaving? {
      LoopMild(t, a, m, pc.svc, pc.b, phase, m', pc', spawn);
    } else {
      CommandMild(t, a, m, pc.svc, pc.b, phase, m', pc', spawn);
    }
    Milder(m, m', Inserts(a, pc));
  }

  lemma RequestMild(t: nat, a: Action, m: Shared, pc: Pc, m': Shared, pc': Pc, spawn: seq<Pc>)
    requires Step(t, a, m, pc, m', pc', spawn)
    requires !pc.Starting? && !pc.StopLookup? && !pc.StopWait? && !pc.StopHold? && !pc.StopClean?
    requires !pc.Unlocking? && !pc.IdleFired? && !pc.Reaping? && !pc.Reaped? && !pc.Returning?
    ensures Mild(m, m', Inserts(a, pc))
  {
    hide StartStep, ClientStep;
    assert SameMeasurements(m, m') && (!Inserts(a, pc) ==> m'.running == m.running) by {
      hide *;
      if Counts(pc) {
        CountsMild(t, a, m, pc, m', pc', spawn);
      } else if pc.Tracking? || pc.Connected? || pc.Proxying? {
        TouchesMild(t, a, m, pc, m', pc', spawn);
      } else {
        ConnectsMild(t, a, m, pc, m', pc', spawn);
      }
    }
  }

  lemma EventRunning(e: Event, m: Shared, m': Shared, spawn: seq<Pc>)
    requires Occur(e, m, m', spawn)
    ensures m'.running == m.running
    ensures forall r :: !Monitors(Env(e), r) ==> Unmonitored(m, m', r)
  {
    hide Fill, Listeners;
  }

  // ---------------------------------------------------------------- foreign steps

  lemma GuarKeeps(t: nat, me: nat, m: Shared, m': Shared)
    requires t != me && Legal(t, m, m') && Accounted(m'.cfg, m'.inUse, m'.instances)
    ensures Undisturbed(me, m, m')
  {
    assert m'.cfg == m.cfg;
    forall pc | Before(me, m, pc) ensures Before(me, m', pc) {
      hide SharedOk, ThreadOk, Known, Guar;
      StayOk(m, m', t, me, pc);
      StayKnown(m, m', t, me, pc);
    }
  }

  lemma BooksAccount(s: State, l: Label, s': State)
    requires Inv(s) && Next(s, l, s')
    ensures Accounted(s'.m.cfg, s'.m.inUse, s'.m.instances)
  {
    NextInv(s, l, s');
    hide Next, SharedOk, ThreadsOk, HoldersExist;
  }

  lemma InsertRenews(t: nat, a: Action, m: Shared, pc: Pc, m': Shared, pc': Pc, spawn: seq<Pc>)
    requires Step(t, a, m, pc, m', pc', spawn) && Inserts(a, pc)
    ensures Renews(m, m')
  {
    hide StartStep;
  }

  /** Every step of a goroutine. */
  lemma DoRenews(t: nat, a: Action, m: Shared, pc: Pc, m': Shared, pc': Pc, spawn: seq<Pc>)
    requires Step(t, a, m, pc, m', pc', spawn) && |m.instances| <= |m'.instances|
    ensures Renews(m, m')
  {
    hide Step, Shrinks, Renews;
    if Inserts(a, pc) {
      InsertRenews(t, a, m, pc, m', pc', spawn);
    } else {
      StepRunning(t, a, m, pc, m', pc', spawn);
      ShrinksRenews(m, m');
    }
  }

  lemma ForeignDo(s: State, t: nat, a: Action, s': State, me: nat)
    requires Inv(s) && Next(s, Do(t, a), s') && t != me
    ensures Undisturbed(me, s.m, s'.m) && Renews(s.m, s'.m)
  {
    var pc, pc', spawn := s.threads[t], s'.threads[t], s'.threads[|s.threads|..];
    assert Step(t, a, s.m, pc, s'.m, pc', spawn);
    hide Step, Next, SharedOk, ThreadOk, Known, Newcomers, Undisturbed, HoldersExist, Books, Accounted, Renews;
    StepOk(t, a, s.m, pc, s'.m, pc', spawn);
    assert |s.m.instances| <= |s'.m.instances|;
    hide Guar;
    DoRenews(t, a, s.m, pc, s'.m, pc', spawn);
    BooksAccount(s, Do(t, a), s');
    GuarKeeps(t, me, s.m, s'.m);
  }

  lemma ForeignEvent(s: State, e: Event, s': State, me: nat)
    requires Inv(s) && Next(s, Env(e), s')
    ensures Undisturbed(me, s.m, s'.m) && Renews(s.m, s'.m)
  {
    var spawn := s'.threads[|s.threads|..];
    hide Occur, SharedOk, Guar, Newcomers, Unbooked, Undisturbed, ThreadsOk, HoldersExist, Books, Accounted;
    EventLegal(me + 1, e, s.m, s'.m, spawn);
    EventRunning(e, s.m, s'.m, spawn);
    BooksAccount(s, Env(e), s');
    GuarKeeps(me + 1, me, s.m, s'.m);
  }

  lemma ForeignKeeps(s: State, l: Label, s': State, me: nat)
    requires Inv(s) && Next(s, l, s') && Foreign(l, me)
    ensures Undisturbed(me, s.m, s'.m) && Renews(s.m, s'.m)
  {
    hide Inv, Next, Undisturbed, Renews;
    match l
    case Do(t, a) => ForeignDo(s, t, a, s', me);
    case Env(e) => ForeignEvent(s, e, s', me);
  }

  lemma UndisturbedTrans(me: nat, m: Shared, m1: Shared, m2: Shared)
    requires Undisturbed(me, m, m1) && Undisturbed(me, m1, m2)
    ensures Undisturbed(me, m, m2)
  {
    GrowsTrans(m, m1, m2);
    hide Before, Grows, Accounted;
  }

  lemma UndisturbedSame(me: nat, m: Shared)
    ensures Undisturbed(me, m, m) && Renews(m, m)
  {
  }

  lemma UndisturbedEvolves(me: nat, m: Shared, m': Shared)
    requires Undisturbed(me, m, m') && Renews(m, m')
    ensures Evolves(m, m', |m'.instances|)
  {
    hide Before, Accounted;
  }

  /** Any stretch of a run without a step of `me` is within the contract. */
  lemma {:induction false} OthersUndisturbed(run: seq<State>, labels: seq<Label>, i: nat, j: nat, me: nat)
    requires IsRun(run, labels) && i <= j < |run|
    requires forall k :: i <= k < j ==> Foreign(labels[k], me)
    ensures Undisturbed(me, run[i].m, run[j].m) && Renews(run[i].m, run[j].m)
    ensures Evolves(run[i].m, run[j].m, |run[j].m.instances|)
  {
    hide Undisturbed, Renews, Evolves, Inv, Next, Foreign;
    if i == j {
      UndisturbedSame(me, run[i].m);
    } else {
      OthersUndisturbed(run, labels, i, j - 1, me);
      RunInv(run, labels, j - 1);
      assert Next(run[j - 1], labels[j - 1], run[j - 1 + 1]);
      ForeignKeeps(run[j - 1], labels[j - 1], run[j], me);
      UndisturbedTrans(me, run[i].m, run[j - 1].m, run[j].m);
      RenewsTrans(run[i].m, run[j - 1].m, run[j].m);
    }
    UndisturbedEvolves(me, run[i].m, run[j].m);
  }

  // ---------------------------------------------------------------- monitors

  lemma StepUnmonitored(s: State, l: Label, s': State, r: Resource)
    requires Next(s, l, s') && !Monitors(l, r)
    ensures Unmonitored(s.m, s'.m, r)
  {
    hide Step, Occur, Shrinks, Unmonitored;
    var spawn := s'.threads[|s.threads|..];
    if l.Do? {
      StepRunning(l.t, l.a, s.m, s.threads[l.t], s'.m, s'.threads[l.t], spawn);
      SameUnmonitored(s.m, s'.m, r);
    } else {
      EventRunning(l.e, s.m, s'.m, spawn);
    }
  }

  lemma SameUnmonitored(m: Shared, m': Shared, r: Resource)
    requires SameMeasurements(m, m')
    ensures Unmonitored(m, m', r)
  {
  }

  /** The contract of `Scheduling.Goroutines`: what a monitor measured, and whether it still has to
      broadcast, stays as it is in any stretch of a run without a step of that monitor. */
  lemma {:induction false} MonitorUndisturbed(run: seq<State>, labels: seq<Label>, i: nat, j: nat, r: Resource)
    requires IsRun(run, labels) && i <= j < |run|
    requires forall k :: i <= k < j ==> !Monitors(labels[k], r)
    ensures Unmonitored(run[i].m, run[j].m, r)
  {
    hide Next, Monitors;
    if i < j {
      MonitorUndisturbed(run, labels, i, j - 1, r);
      assert Next(run[j - 1], labels[j - 1], run[j - 1 + 1]);
      StepUnmonitored(run[j - 1], labels[j - 1], run[j], r);
    }
  }
}
