/** When a waiter is woken: by the broadcasts on its resource after it registered, and by nothing else. */
module WakeupTheorems {
  import opened Model
  import opened Machine
  import opened Invariant
  import opened Operations
  import opened Steps
  import opened Reachable
  import opened WaiterTheorems
  import opened EvictionTheorems
  import opened Records

  // ---------------------------------------------------------------- which channels a step fills

  /** At most the channels in `ks` are filled, with `true`. */
  ghost predicate Fills(m: Shared, m': Shared, ks: set<nat>) {
    && |m.channels| <= |m'.channels|
    && forall k :: 0 <= k < |m.channels| && m'.channels[k].value.Some? ==>
         m.channels[k].value.Some? || (k in ks && m'.channels[k].value == Some(true))
  }

  lemma FillsNothing(m: Shared, m': Shared, ks: set<nat>)
    requires |m.channels| <= |m'.channels|
    requires forall k :: 0 <= k < |m.channels| ==> m'.channels[k] == m.channels[k]
    ensures Fills(m, m', ks)
  {
  }

  lemma TakeFills(m: Shared, k: nat, ks: set<nat>)
    requires k < |m.channels|
    ensures Fills(m, Take(m, k), ks)
  {
  }

  lemma CleanUpFillsOnly(m: Shared, i: nat)
    requires i < |m.instances|
    ensures Fills(m, CleanUp(m, i), Listeners(m.change, CleanUpSignals(m, i)))
  {
    hide Listeners, Minus;
    if m.instances[i].released {
      FillsNothing(m, m, Listeners(m.change, CleanUpSignals(m, i)));
    }
  }

  lemma PendingFills(a: Action, m: Shared, s: Service, b: nat, chans: map<Resource, nat>, todo: set<Resource>,
                     m': Shared, pc': Pc)
    requires PendingStep(a, m, s, b, chans, todo, m', pc')
    ensures Fills(m, m', {})
  {
  }

  lemma LoopFills(t: nat, a: Action, m: Shared, s: Service, b: nat, phase: Phase, m': Shared, pc': Pc, spawn: seq<Pc>)
    requires b < |m.instances| && StartStep(t, a, m, s, b, phase, m', pc', spawn)
    requires phase.Pass? || phase.Pending? || phase.PendingDone? || phase.Lacking? || phase.Parking? || phase.Waiting?
             || phase.Leaving?
    ensures Fills(m, m', {})
  {
    assert Fills(m, m', {});
    hide IsVictim, Eligible, PassStep, PendingStep, Unregister, Register, Fills;
    if phase.Pass? {
    } else if phase.Pending? {
      PendingFills(a, m, s, b, phase.chans, phase.todo, m', pc');
    } else if phase.Waiting? && a.WaitReceive? {
      hide Take;
      TakeFills(m, phase.ch, {});
    } else {
      FillsNothing(m, m', {});
    }
  }

  lemma CommandFills(t: nat, a: Action, m: Shared, s: Service, b: nat, phase: Phase, m': Shared, pc': Pc,
                     spawn: seq<Pc>)
    requires b < |m.instances| && StartStep(t, a, m, s, b, phase, m', pc', spawn)
    requires !phase.Pass? && !phase.Pending? && !phase.PendingDone? && !phase.Lacking? && !phase.Parking?
             && !phase.Waiting? && !phase.Leaving?
    ensures Fills(m, m', Listeners(m.change, if phase.Refused? || phase.SpawnFailed? then CleanUpSignals(m, b) else {}))
  {
    assert Fills(m, m', Listeners(m.change, CleanUpSignals(m, b)));
    hide CleanUp, Fills, Listeners, Minus, PassStep, PendingStep;
    if phase.Refused? {
      CleanUpFillsOnly(m, b);
    } else if phase.SpawnFailed? {
      CleanUpFillsOnly(GiveBack(m, s), b);
    } else {
      FillsNothing(m, m', Listeners(m.change, {}));
    }
  }

  lemma StopFills(t: nat, a: Action, m: Shared, pc: Pc, m': Shared, pc': Pc, spawn: seq<Pc>)
    requires Step(t, a, m, pc, m', pc', spawn)
    requires pc.StopLookup? || pc.StopWait? || pc.StopHold? || pc.StopClean?
    ensures Fills(m, m', Listeners(m.change, if pc.StopClean? then CleanUpSignals(m, pc.i) else {}))
  {
    hide StartStep, ClientStep, CleanUp, Resume, Fills, Listeners, CleanUpSignals;
    if pc.StopClean? {
      CleanUpFillsOnly(m, pc.i);
    } else {
      if pc.StopLookup? {
        ResumeChannels(m, pc.k);
      }
      FillsNothing(m, m', Listeners(m.change, {}));
    }
  }

  lemma ResumeChannels(m: Shared, k: Cont)
    ensures Resume(m, k).channels == m.channels
  {
  }

  lemma UnlockChannels(m: Shared, i: nat, after: Then)
    requires i < |m.instances|
    ensures (if after.ToCont? then Resume(Free(m, i), after.k) else Free(m, i)).channels == m.channels
  {
    if after.ToCont? {
      ResumeChannels(Free(m, i), after.k);
    }
    hide Resume;
  }

  lemma OtherFills(t: nat, a: Action, m: Shared, pc: Pc, m': Shared, pc': Pc, spawn: seq<Pc>)
    requires Step(t, a, m, pc, m', pc', spawn)
    requires pc.Unlocking? || pc.IdleFired? || pc.Reaping? || pc.Reaped? || pc.Returning?
    ensures Fills(m, m', Listeners(m.change, if pc.Reaped? && pc.svc in m.cfg.stopOnExit then CleanUpSignals(m, pc.i)
                                             else {}))
  {
    hide StartStep, ClientStep, CleanUp, Resume, Free, Fills, Listeners, CleanUpSignals, CanBeStopped, UnlockedPc,
         GiveBack;
    if pc.Reaped? && pc.svc in m.cfg.stopOnExit {
      CleanUpFillsOnly(m, pc.i);
    } else {
      if pc.Unlocking? {
        UnlockChannels(m, pc.i, pc.after);
      } else if pc.Returning? {
        GiveBackChange(m, pc.svc);
      }
      FillsNothing(m, m', Listeners(m.change, {}));
    }
  }

  lemma ClientFills(t: nat, a: Action, m: Shared, pc: Pc, m': Shared, pc': Pc, spawn: seq<Pc>)
    requires ClientStep(t, a, m, pc, m', pc', spawn)
    ensures Fills(m, m', Listeners(m.change, if pc.Notifying? then m.cfg.Requirement(pc.svc).Keys else {}))
  {
    assert Fills(m, Broadcast(m, m.cfg.Requirement(pc.svc).Keys, true),
                 Listeners(m.change, m.cfg.Requirement(pc.svc).Keys));
    hide Fills, Listeners, Broadcast;
    if pc.Notifying? {
      hide ClientStep;
      NotifySignals(t, a, m, pc, m', pc', spawn);
    } else {
      QuietChannels(t, a, m, pc, m', pc', spawn);
      FillsNothing(m, m', Listeners(m.change, {}));
    }
  }

  lemma CountChannels(m: Shared, s: Service, p: int, w: int)
    ensures Count(m, s, p, w).channels == m.channels
  {
  }

  lemma QuietChannels(t: nat, a: Action, m: Shared, pc: Pc, m': Shared, pc': Pc, spawn: seq<Pc>)
    requires ClientStep(t, a, m, pc, m', pc', spawn) && !pc.Notifying?
    ensures m'.channels == m.channels
  {
    hide Count, TouchIf, AfterCount, OnwardPc;
    if pc.Arriving? {
      CountChannels(m, pc.svc, 0, 1);
    } else if pc.Entering? {
      CountChannels(m, pc.svc, 1, -1);
    } else if pc.Departing? {
      CountChannels(m, pc.svc, -1, 0);
    } else if pc.GivingUp? {
      CountChannels(m, pc.svc, 0, -1);
    } else if pc.Tracking? || pc.Connected? || pc.Proxying? {
      TouchChannels(m, pc.svc, a.j, a.now);
    }
  }

  lemma TouchChannels(m: Shared, s: Service, j: nat, now: int)
    ensures TouchIf(m, s, j, now).channels == m.channels
  {
  }

  lemma DoFills(s: State, t: nat, a: Action, s': State)
    requires Next(s, Do(t, a), s')
    ensures Fills(s.m, s'.m, Listeners(s.m.change, Signals(s, Do(t, a))))
  {
    var pc, pc', spawn := s.threads[t], s'.threads[t], s'.threads[|s.threads|..];
    assert Step(t, a, s.m, pc, s'.m, pc', spawn);
    hide Next, StartStep, ClientStep, Fills, Listeners, CleanUpSignals;
    if pc.Starting? {
      StartFills(t, a, s.m, pc, s'.m, pc', spawn);
    } else if pc.StopLookup? || pc.StopWait? || pc.StopHold? || pc.StopClean? {
      StopFills(t, a, s.m, pc, s'.m, pc', spawn);
    } else if pc.Unlocking? || pc.IdleFired? || pc.Reaping? || pc.Reaped? || pc.Returning? {
      OtherFills(t, a, s.m, pc, s'.m, pc', spawn);
    } else {
      ClientFills(t, a, s.m, pc, s'.m, pc', spawn);
    }
  }

  lemma StartFills(t: nat, a: Action, m: Shared, pc: Pc, m': Shared, pc': Pc, spawn: seq<Pc>)
    requires Step(t, a, m, pc, m', pc', spawn) && pc.Starting?
    ensures Fills(m, m', Listeners(m.change, if pc.phase.Refused? || pc.phase.SpawnFailed? then CleanUpSignals(m, pc.b)
                                             else {}))
  {
    hide StartStep, ClientStep, Fills, Listeners, CleanUpSignals;
    var phase := pc.phase;
    if phase.Pass? || phase.Pending? || phase.PendingDone? || phase.Lacking? || phase.Parking? || phase.Waiting?
       || phase.Leaving? {
      LoopFills(t, a, m, pc.svc, pc.b, phase, m', pc', spawn);
      FillsMore(m, m', Listeners(m.change, {}));
    } else {
      CommandFills(t, a, m, pc.svc, pc.b, phase, m', pc', spawn);
    }
  }

  lemma FillsMore(m: Shared, m': Shared, ks: set<nat>)
    requires Fills(m, m', {})
    ensures Fills(m, m', ks)
  {
  }

  // ---------------------------------------------------------------- the cause of a signal

  /** A channel that a waiter listens on is filled only by a broadcast that addresses the waiter. One who waits for a
      change is told by a goroutine to measure anew, and by a monitor to trust the new amount. */
  lemma SignalCause(s: State, l: Label, s': State, t: nat, r: Resource, ch: nat)
    requires Inv(s) && Next(s, l, s') && Listening(s, t, r, ch) && !Signalled(s, ch) && Signalled(s', ch)
    ensures Addressed(s, l, t, r)
    ensures s.threads[t].phase.Waiting? ==> s'.m.channels[ch].value == Some(l.Do?)
  {
    StarterPhase(s, t);
    ListeningEntry(s, t, r, ch);
    hide Next, Inv, PhaseOk;
    match l {
      case Env(e) => PublishCause(s, e, s', t, r, ch);
      case Do(u, a) => DoCause(s, u, a, s', t, r, ch);
    }
  }

  lemma DoCause(s: State, u: nat, a: Action, s': State, t: nat, r: Resource, ch: nat)
    requires WaitersOk(s.m) && Next(s, Do(u, a), s') && t < |s.threads| && s.threads[t].Starting?
    requires ch < |s.m.channels| && !Signalled(s, ch) && Signalled(s', ch)
    requires s.m.channels[ch].key
             == if s.threads[t].phase.Waiting? then ChangeKey(r, s.threads[t].svc) else FirstKey(r, s.threads[t].svc)
    ensures Addressed(s, Do(u, a), t, r)
    ensures s'.m.channels[ch].value == Some(true)
  {
    DoFills(s, u, a, s');
    hide Next, Signals, WaitersOk, Listeners;
    ListenerKey(s.m, Signals(s, Do(u, a)), ch);
  }

  lemma PublishCause(s: State, e: Event, s': State, t: nat, r: Resource, ch: nat)
    requires WaitersOk(s.m) && Next(s, Env(e), s') && t < |s.threads| && s.threads[t].Starting?
    requires ch < |s.m.channels| && !Signalled(s, ch) && Signalled(s', ch)
    requires s.m.channels[ch].key
             == if s.threads[t].phase.Waiting? then ChangeKey(r, s.threads[t].svc) else FirstKey(r, s.threads[t].svc)
    ensures Addressed(s, Env(e), t, r)
    ensures s.threads[t].phase.Waiting? ==> s'.m.channels[ch].value == Some(false)
  {
    hide WaitersOk, Listeners;
    assert e.Publish?;
    if ch in Listeners(s.m.first, {e.r}) {
      FirstListenerKey(s.m, {e.r}, ch);
    } else {
      ListenerKey(s.m, {e.r}, ch);
    }
  }

  // ---------------------------------------------------------------- releases

  lemma CleanerPhase(t: nat, a: Action, m: Shared, s: Service, b: nat, phase: Phase, m': Shared, pc': Pc,
                     spawn: seq<Pc>)
    requires b < |m.instances| && StartStep(t, a, m, s, b, phase, m', pc', spawn) && Cleans(a)
    ensures phase.Refused? || phase.SpawnFailed?
  {
    hide IsVictim, Eligible, CleanUp, MakeReady, Mark, SetCommand, GiveBack, Unregister, Enlist, Take, PassCommits,
         PassLacks, PassAsks, FreshChannels, Asked, Commit;
  }

  /** A step that releases an instance announces its resources. */
  lemma ReleaseSignals(s: State, t: nat, a: Action, s': State, i: nat, r: Resource)
    requires Next(s, Do(t, a), s') && i < |s.m.instances| && i == Writes(s, Do(t, a), s') && Cleans(a)
    requires !s.m.instances[i].released && r in s.m.cfg.Requirement(s.m.instances[i].svc)
    ensures r in Signals(s, Do(t, a))
  {
    var pc, pc', spawn := s.threads[t], s'.threads[t], s'.threads[|s.threads|..];
    assert Step(t, a, s.m, pc, s'.m, pc', spawn);
    hide Next, StartStep, ClientStep;
    if pc.Starting? {
      assert StartStep(t, a, s.m, pc.svc, pc.b, pc.phase, s'.m, pc', spawn);
      hide Step;
      CleanerPhase(t, a, s.m, pc.svc, pc.b, pc.phase, s'.m, pc', spawn);
    } else {
      hide Step;
    }
  }

  /** Whoever waits for a resource that a released instance required has a signal. */
  lemma ReleaseHeard(run: seq<State>, labels: seq<Label>, k: nat, i: nat, t: nat, r: Resource, ch: nat)
    requires IsRun(run, labels) && k < |labels| && i < |run[k].m.instances|
    requires !run[k].m.instances[i].released && i < |run[k + 1].m.instances| && run[k + 1].m.instances[i].released
    requires r in run[k].m.cfg.Requirement(run[k].m.instances[i].svc)
    requires Listening(run[k], t, r, ch) && run[k].threads[t].phase.Waiting?
    ensures Signalled(run[k + 1], ch)
  {
    RunInv(run, labels, k);
    assert Next(run[k], labels[k], run[k + 1]);
    RecordNext(run[k], labels[k], run[k + 1], i);
    hide IsRun, Inv, Next, Signals, Writes, Signalled;
    ReleaseSignals(run[k], labels[k].t, labels[k].a, run[k + 1], i, r);
    Reached(run[k], labels[k], run[k + 1], t, r, ch);
  }

  // ---------------------------------------------------------------- announcements

  lemma CountAnnounces(m: Shared, s: Service, next: Onward)
    ensures !OnwardPc(s, next).Notifying?
    ensures AfterCount(m, s, next).Notifying? ==> AfterCount(m, s, next).svc == s && StatsOf(m, s) == Stats(0, 0)
  {
  }

  lemma ClientAnnounces(t: nat, a: Action, m: Shared, pc: Pc, m': Shared, pc': Pc, spawn: seq<Pc>)
    requires ClientStep(t, a, m, pc, m', pc', spawn) && pc'.Notifying?
    requires pc.Notifying? || pc.Arriving? || pc.Entering? || pc.Departing? || pc.GivingUp?
    ensures StatsOf(m', pc'.svc) == Stats(0, 0)
  {
    hide Count, Broadcast, AfterCount, OnwardPc, StatsOf;
    CountAnnounces(m', pc.svc, if pc.Notifying? then pc.next else if pc.Arriving? then OnLookup
                               else if pc.Entering? then OnProxy else OnDone);
  }

  lemma RequestAnnouncesNot(t: nat, a: Action, m: Shared, pc: Pc, m': Shared, pc': Pc, spawn: seq<Pc>)
    requires ClientStep(t, a, m, pc, m', pc', spawn)
    requires !pc.Notifying? && !pc.Arriving? && !pc.Entering? && !pc.Departing? && !pc.GivingUp?
    ensures !pc'.Notifying?
  {
    hide Acquire, TouchIf, Finds, Insert;
  }

  lemma StopAnnouncesNot(t: nat, a: Action, m: Shared, pc: Pc, m': Shared, pc': Pc, spawn: seq<Pc>)
    requires Step(t, a, m, pc, m', pc', spawn)
    requires pc.StopLookup? || pc.StopWait? || pc.StopHold? || pc.StopClean? || pc.Unlocking? || pc.IdleFired?
             || pc.Reaping? || pc.Reaped? || pc.Returning?
    ensures !pc'.Notifying?
  {
    hide StartStep, ClientStep, CleanUp, Resume, Free, Acquire, GiveBack, CanBeStopped;
  }

  /** A service is announced only when nobody waits for it and nobody is forwarded to it. */
  lemma OnlyZeroIsAnnounced(run: seq<State>, labels: seq<Label>, k: nat, t: nat, a: Action)
    requires IsRun(run, labels) && k < |labels| && labels[k] == Do(t, a)
    requires t < |run[k + 1].threads| && run[k + 1].threads[t].Notifying?
    ensures StatsOf(run[k + 1].m, run[k + 1].threads[t].svc) == Stats(0, 0)
  {
    var s, s' := run[k], run[k + 1];
    assert Next(s, labels[k], s');
    var pc, pc', spawn := s.threads[t], s'.threads[t], s'.threads[|s.threads|..];
    assert Step(t, a, s.m, pc, s'.m, pc', spawn);
    hide IsRun, Next, StartStep, ClientStep, StatsOf;
    if pc.Starting? {
      StartPicks(t, a, s.m, pc.svc, pc.b, pc.phase, s'.m, pc', spawn);
    } else if pc.StopLookup? || pc.StopWait? || pc.StopHold? || pc.StopClean? || pc.Unlocking? || pc.IdleFired?
              || pc.Reaping? || pc.Reaped? || pc.Returning? {
      hide Step;
      StopAnnouncesNot(t, a, s.m, pc, s'.m, pc', spawn);
    } else if pc.Notifying? || pc.Arriving? || pc.Entering? || pc.Departing? || pc.GivingUp? {
      ClientAnnounces(t, a, s.m, pc, s'.m, pc', spawn);
    } else {
      RequestAnnouncesNot(t, a, s.m, pc, s'.m, pc', spawn);
    }
  }

  // ---------------------------------------------------------------- what every run satisfies

  /** A waiter's channel is full exactly when some broadcast on its resource came after it was empty. */
  lemma WokenExactly(run: seq<State>, labels: seq<Label>, i: nat, j: nat, t: nat, r: Resource, ch: nat)
    requires IsRun(run, labels) && i <= j < |run| && !Signalled(run[i], ch)
    requires forall k :: i <= k <= j ==> Listening(run[k], t, r, ch)
    ensures Signalled(run[j], ch) <==> exists p :: i <= p < j && Addressed(run[p], labels[p], t, r)
  {
    assert |run| == |labels| + 1;
    hide IsRun, Listening, Addressed, Signalled;
    if p :| i <= p < j && Addressed(run[p], labels[p], t, r) {
      WakeupRetained(run, labels, p, j, t, r, ch);
    }
    if Signalled(run[j], ch) {
      var p := Cause(run, labels, i, j, t, r, ch);
    }
  }

  lemma {:induction false} Cause(run: seq<State>, labels: seq<Label>, i: nat, j: nat, t: nat, r: Resource, ch: nat)
    returns (p: nat)
    requires IsRun(run, labels) && i <= j < |run| && !Signalled(run[i], ch) && Signalled(run[j], ch)
    requires forall k :: i <= k <= j ==> Listening(run[k], t, r, ch)
    ensures i <= p < j && Addressed(run[p], labels[p], t, r)
  {
    hide Inv, Next, Init, Listening, Addressed, Signalled;
    assert i < j && |run| == |labels| + 1;
    RunInv(run, labels, j - 1);
    assert Next(run[j - 1], labels[j - 1], run[j - 1 + 1]);
    hide IsRun;
    if Signalled(run[j - 1], ch) {
      p := Cause(run, labels, i, j - 1, t, r, ch);
    } else {
      p := j - 1;
      SignalCause(run[p], labels[p], run[j], t, r, ch);
    }
  }

  /** Registration makes a new, empty channel: what was broadcast before does not count. Until the next
      broadcast on the resource all that the waiter can do is give up, even if what it needs is free. */
  lemma EarlySignalsLost(run: seq<State>, labels: seq<Label>, i: nat, j: nat, t: nat)
    requires IsRun(run, labels) && i < j < |run| && labels[i] == Do(t, Park) && t < |run[i].threads|
    requires run[i].threads[t].Starting? && run[i].threads[t].phase.Parking?
    requires var r, ch := run[i].threads[t].phase.r, |run[i].m.channels|;
             && (forall k :: i < k <= j ==> Listening(run[k], t, r, ch))
             && forall p :: i < p < j ==> !Addressed(run[p], labels[p], t, r)
    ensures forall a, m', pc', spawn :: Step(t, a, run[j].m, run[j].threads[t], m', pc', spawn) ==> a.WaitAbort?
  {
    var pc := run[i].threads[t];
    var r, ch := pc.phase.r, |run[i].m.channels|;
    assert Next(run[i], labels[i], run[i + 1]);
    WokenExactly(run, labels, i + 1, j, t, r, ch);
    Parked(run, labels, i + 1, j, t, r, ch);
    hide IsRun, Next, Addressed;
    OnlyAbort(run[j], t, r, ch);
  }

  predicate WaitsOnly(s: State, t: nat, r: Resource, ch: nat) {
    t < |s.threads| && s.threads[t].Starting? && s.threads[t].phase == Waiting(r, ch)
  }

  /** Whoever listens on that channel throughout is still in the same select. */
  lemma {:induction false} Parked(run: seq<State>, labels: seq<Label>, i: nat, j: nat, t: nat, r: Resource, ch: nat)
    requires IsRun(run, labels) && i <= j < |run| && forall k :: i <= k <= j ==> Listening(run[k], t, r, ch)
    requires WaitsOnly(run[i], t, r, ch)
    ensures WaitsOnly(run[j], t, r, ch)
  {
    hide Next, Init, Listening, WaitsOnly;
    if i < j {
      assert Next(run[j - 1], labels[j - 1], run[j - 1 + 1]);
      hide IsRun;
      Parked(run, labels, i, j - 1, t, r, ch);
      StillWaiting(run[j - 1], labels[j - 1], run[j], t, r, ch);
    }
  }

  lemma StillWaiting(s: State, l: Label, s': State, t: nat, r: Resource, ch: nat)
    requires Next(s, l, s') && WaitsOnly(s, t, r, ch) && Listening(s', t, r, ch)
    ensures WaitsOnly(s', t, r, ch)
  {
    if l.Do? && l.t == t {
      var pc, pc' := s.threads[t], s'.threads[t];
      assert Step(t, l.a, s.m, pc, s'.m, pc', s'.threads[|s.threads|..]);
      hide Next, Step;
      WaitingLeaves(t, l.a, s.m, pc, s'.m, pc', s'.threads[|s.threads|..]);
    } else {
      hide Step, Occur;
    }
  }

  lemma OnlyAbort(s: State, t: nat, r: Resource, ch: nat)
    requires WaitsOnly(s, t, r, ch) && !Signalled(s, ch)
    ensures forall a, m', pc', spawn :: Step(t, a, s.m, s.threads[t], m', pc', spawn) ==> a.WaitAbort?
  {
    var pc := s.threads[t];
    forall a, m', pc', spawn | Step(t, a, s.m, pc, m', pc', spawn) ensures a.WaitAbort? {
      assert StartStep(t, a, s.m, pc.svc, pc.b, pc.phase, m', pc', spawn);
      hide PassStep, PendingStep, Take;
    }
  }

  lemma CleanUpIsStep(t: nat, m: Shared, v: Service, i: nat, k: Cont)
    requires i < |m.instances|
    ensures Step(t, StopCleanUp, m, StopClean(v, i, k), CleanUp(m, i), Unlocking(v, i, ToCont(k)), [])
  {
    hide CleanUp;
  }

  lemma ParkIsStep(t: nat, m: Shared, q: Service, b: nat, r: Resource)
    requires b < |m.instances|
    ensures Step(t, Park, m, Starting(q, b, Parking(r)), Enlist(m, r, q), Starting(q, b, Waiting(r, |m.channels|)), [])
  {
    hide Enlist;
  }

  lemma EnlistedListens(m: Shared, q: Service, b: nat, r: Resource, threads: seq<Pc>, t: nat)
    requires t < |threads| && threads[t] == Starting(q, b, Waiting(r, |m.channels|))
    ensures var s := State(Enlist(m, r, q), threads); Listening(s, t, r, |m.channels|) && !Signalled(s, |m.channels|)
  {
    hide Register;
  }

  /** How that comes about: a clean-up frees all that is missing just before the waiter registers. Two
      steps later it waits on an empty channel although the pass would reserve. */
  lemma ReleaseBeforePark(s: State, t: nat, u: nat, q: Service, b: nat, r: Resource, v: Service, i: nat, k: Cont)
    returns (s1: State, s2: State)
    requires Inv(s) && t < |s.threads| && u < |s.threads| && t != u
    requires s.threads[t] == Starting(q, b, Parking(r)) && s.threads[u] == StopClean(v, i, k)
    requires i < |s.m.instances| && PassCommits(CleanUp(s.m, i), q, true)
    ensures Next(s, Do(u, StopCleanUp), s1) && Next(s1, Do(t, Park), s2)
    ensures PassCommits(s2.m, q, true) && Listening(s2, t, r, |s.m.channels|) && !Signalled(s2, |s.m.channels|)
  {
    StarterPhase(s, t);
    CleanUpFrame(s.m, i);
    var m1, pc := CleanUp(s.m, i), Starting(q, b, Waiting(r, |s.m.channels|));
    hide *;
    CleanUpIsStep(u, s.m, v, i, k);
    StepIsNext(s, u, StopCleanUp, m1, Unlocking(v, i, ToCont(k)));
    s1 := State(m1, s.threads[u := Unlocking(v, i, ToCont(k))]);
    ParkIsStep(t, m1, q, b, r);
    StepIsNext(s1, t, Park, Enlist(m1, r, q), pc);
    s2 := State(Enlist(m1, r, q), s1.threads[t := pc]);
    EnlistedListens(m1, q, b, r, s2.threads, t);
    assert PassCommits(Enlist(m1, r, q), q, true) by {
      hide Register;
      forall p ensures !StaticShort(Enlist(m1, r, q), q, p) {
        assert !StaticShort(m1, q, p);
      }
    }
  }
}
