/** What the invariant says about the ledger, the registry and the connection counters, for
    every state of every run. */
module LedgerTheorems {
  import opened Model
  import opened Machine
  import opened Invariant
  import opened Steps
  import opened Ledger
  import opened Reachable

  // ---------------------------------------------------------------- registry

  /** A name has at most one inserted, unreleased instance, and it is the registered one. */
  lemma OneInstancePerName(run: seq<State>, labels: seq<Label>, k: nat, i: nat, j: nat)
    requires IsRun(run, labels) && k < |run|
    requires i < |run[k].m.instances| && !run[k].m.instances[i].released
    requires j < |run[k].m.instances| && !run[k].m.instances[j].released
    requires run[k].m.instances[i].svc == run[k].m.instances[j].svc
    ensures i == j && run[k].m.instances[i].svc in run[k].m.running && run[k].m.running[run[k].m.instances[i].svc] == i
  {
    RunInv(run, labels, k);
  }

  /** A registered instance that nobody manages holds its reservation and has a command. */
  lemma FreeMeansStarted(run: seq<State>, labels: seq<Label>, k: nat, s: Service)
    requires IsRun(run, labels) && k < |run| && s in run[k].m.running
    ensures run[k].m.running[s] < |run[k].m.instances|
    ensures run[k].m.instances[run[k].m.running[s]].holder.None? ==>
              run[k].m.instances[run[k].m.running[s]].marked && run[k].m.instances[run[k].m.running[s]].command
  {
    RunInv(run, labels, k);
    Registered(run[k].m, s);
    InstanceFacts(run[k].m, run[k].m.running[s]);
  }

  // ---------------------------------------------------------------- resources in use

  /** resourcesInUse is what the committed and unreleased instances require, no more and no less. */
  lemma InUseConserved(run: seq<State>, labels: seq<Label>, k: nat, r: Resource)
    requires IsRun(run, labels) && k < |run|
    ensures Get(run[k].m.inUse, r) == SumUse(run[k].m.cfg, run[k].m.instances, r)
  {
    RunInv(run, labels, k);
  }

  /** Nothing is over-committed and nothing is given back twice. */
  lemma CapacitySafe(run: seq<State>, labels: seq<Label>, k: nat, r: Resource)
    requires IsRun(run, labels) && k < |run|
    ensures 0 <= Get(run[k].m.inUse, r)
    ensures r !in run[k].m.cfg.check ==> Get(run[k].m.inUse, r) <= Get(run[k].m.cfg.amount, r)
  {
    RunInv(run, labels, k);
    SumUseNonnegative(run[k].m.cfg, run[k].m.instances, r);
  }

  lemma {:induction false} SumUseReleased(c: Config, xs: seq<Instance>, r: Resource)
    requires forall i :: 0 <= i < |xs| ==> xs[i].released
    ensures SumUse(c, xs, r) == 0
  {
    if xs != [] {
      SumUseReleased(c, xs[..|xs| - 1], r);
    }
  }

  /** With nothing registered, everything has been given back. */
  lemma IdleMeansFree(run: seq<State>, labels: seq<Label>, k: nat, r: Resource)
    requires IsRun(run, labels) && k < |run| && run[k].m.running == map[]
    ensures Get(run[k].m.inUse, r) == 0
  {
    RunInv(run, labels, k);
    SumUseReleased(run[k].m.cfg, run[k].m.instances, r);
  }

  // ---------------------------------------------------------------- resources reserved

  /** resourcesReserved is what the starts still owe that committed and have not finished. */
  lemma ReservedConserved(run: seq<State>, labels: seq<Label>, k: nat, r: Resource)
    requires IsRun(run, labels) && k < |run|
    ensures Get(run[k].m.reserved, r) == Sum(Owed(run[k].m.cfg, r), run[k].threads)
    ensures (forall t :: 0 <= t < |run[k].threads| ==> Debtor(run[k].threads[t]).None?) ==>
              Get(run[k].m.reserved, r) == 0
  {
    RunInv(run, labels, k);
    if forall t :: 0 <= t < |run[k].threads| ==> Debtor(run[k].threads[t]).None? {
      SumZero(Owed(run[k].m.cfg, r), run[k].threads);
    }
  }

  // ---------------------------------------------------------------- who may commit

  /** The instance whose contribution grew is one a reservation loop holds. */
  lemma Grown(t: nat, m: Shared, m': Shared, pc: Pc, r: Resource)
    requires Before(t, m, pc) && Guar(t, m, m') && UseDelta(m, m', Subject(pc))
    requires Get(m'.inUse, r) > Get(m.inUse, r)
    ensures pc.Starting? && pc.b < |m.instances| && InReserve(m.instances[pc.b]) && m'.instances[pc.b].committed
    ensures !m'.instances[pc.b].released
  {
    var k := Subject(pc);
    GrownLoop(t, m, pc);
  }

  /** Elsewhere the subject is settled, or there is none. */
  lemma GrownLoop(t: nat, m: Shared, pc: Pc)
    requires ThreadOk(m, t, pc) && 0 <= Subject(pc) < |m.instances|
    requires InReserve(m.instances[Subject(pc)])
    ensures pc.Starting? && InReserve(m.instances[pc.b])
  {
    hide NoEntries, AllFresh, PhaseOk;
  }

  lemma PassCommitsNot(a: Action, m: Shared, s: Service, b: nat, recheck: bool, m': Shared, pc': Pc)
    requires b < |m.instances| && PassStep(a, m, s, b, recheck, m', pc') && !a.PassCommit?
    ensures m'.instances == m.instances
  {
    hide PassAsks, PassLacks, FreshChannels, Unregister;
  }

  lemma PendingCommitsNot(a: Action, m: Shared, s: Service, b: nat, chans: map<Resource, nat>, todo: set<Resource>,
                          m': Shared, pc': Pc)
    requires PendingStep(a, m, s, b, chans, todo, m', pc')
    ensures m'.instances == m.instances
  {
  }

  lemma WaitCommitsNot(t: nat, a: Action, m: Shared, s: Service, b: nat, phase: Phase, m': Shared, pc': Pc,
                       spawn: seq<Pc>)
    requires b < |m.instances| && StartStep(t, a, m, s, b, phase, m', pc', spawn)
    requires phase.PendingDone? || phase.Lacking? || phase.Parking? || phase.Waiting? || phase.Leaving?
    ensures m'.instances == m.instances
  {
    hide IsVictim, Eligible, Unregister, Register, PassStep, PendingStep, CleanUp, GiveBack, Model.MakeReady, Mark,
         SetCommand;
    if phase.Parking? {
      assert m' == Enlist(m, phase.r, s);
    } else if phase.Waiting? && a.WaitReceive? {
      assert m' == Take(m, phase.ch);
    }
  }

  lemma LoopCommits(t: nat, a: Action, m: Shared, s: Service, b: nat, phase: Phase, m': Shared, pc': Pc, spawn: seq<Pc>)
    requires b < |m.instances| && StartStep(t, a, m, s, b, phase, m', pc', spawn) && PhaseOk(m, s, b, phase)
    requires InReserve(m.instances[b]) && !a.PassCommit?
    ensures phase.Refused? || m'.instances == m.instances
  {
    hide IsVictim, Eligible, NoEntries, AllFresh, CleanUp, PassStep, PendingStep, Unregister, Enlist, Take;
    if phase.Pass? {
      PassCommitsNot(a, m, s, b, phase.recheck, m', pc');
    } else if phase.Pending? {
      PendingCommitsNot(a, m, s, b, phase.chans, phase.todo, m', pc');
    } else if phase.PendingDone? || phase.Lacking? || phase.Parking? || phase.Waiting? || phase.Leaving? {
      WaitCommitsNot(t, a, m, s, b, phase, m', pc', spawn);
    }
  }

  /** Only a commit adds to the ledger. */
  lemma OnlyCommitsAdd(run: seq<State>, labels: seq<Label>, k: nat, r: Resource)
    requires IsRun(run, labels) && k < |labels|
    requires Get(run[k + 1].m.inUse, r) > Get(run[k].m.inUse, r)
    ensures labels[k].Do? && labels[k].a.PassCommit? && labels[k].t < |run[k].threads|
    ensures run[k].threads[labels[k].t].Starting? && run[k].threads[labels[k].t].phase.Pass?
  {
    RunInv(run, labels, k);
    var s, s' := run[k], run[k + 1];
    assert Next(s, labels[k], s');
    match labels[k]
    case Env(e) =>
      EventLegal(0, e, s.m, s'.m, s'.threads[|s.threads|..]);
    case Do(t, a) =>
      OnlyCommitAdds(s, t, a, s', r);
  }

  lemma OnlyCommitAdds(s: State, t: nat, a: Action, s': State, r: Resource)
    requires Inv(s) && Next(s, Do(t, a), s') && Get(s'.m.inUse, r) > Get(s.m.inUse, r)
    ensures a.PassCommit? && s.threads[t].Starting? && s.threads[t].phase.Pass?
  {
    var pc, pc', spawn := s.threads[t], s'.threads[t], s'.threads[|s.threads|..];
    assert Step(t, a, s.m, pc, s'.m, pc', spawn);
    assert Before(t, s.m, pc);
    hide SharedOk, Known, Guar, HoldersExist, StartStep, ClientStep, PhaseOk;
    CountedNow(s, t);
    StepOk(t, a, s.m, pc, s'.m, pc', spawn);
    StepBalanced(t, a, s.m, pc, s'.m, pc', spawn);
    Grown(t, s.m, s'.m, pc, r);
    if !a.PassCommit? {
      LoopCommits(t, a, s.m, pc.svc, pc.b, pc.phase, s'.m, pc', spawn);
      if pc.phase.Refused? {
        RefusedReleases(t, a, s.m, pc.svc, pc.b, s'.m, pc', spawn);
      }
      assert false;
    }
    CommitsAtPass(t, a, s.m, pc.svc, pc.b, pc.phase, s'.m, pc', spawn);
  }

  lemma RefusedReleases(t: nat, a: Action, m: Shared, s: Service, b: nat, m': Shared, pc': Pc, spawn: seq<Pc>)
    requires b < |m.instances| && StartStep(t, a, m, s, b, Refused, m', pc', spawn)
    ensures b < |m'.instances| && m'.instances[b].released
  {
    CleanUpKeepsHolder(m, b);
    hide CleanUp;
  }

  lemma CommitsAtPass(t: nat, a: Action, m: Shared, s: Service, b: nat, phase: Phase, m': Shared, pc': Pc,
                      spawn: seq<Pc>)
    requires b < |m.instances| && StartStep(t, a, m, s, b, phase, m', pc', spawn) && a.PassCommit?
    ensures phase.Pass?
  {
    hide IsVictim, Eligible, CleanUp;
  }

  // ---------------------------------------------------------------- connections

  /** The goroutines in one connection phase of a service. */
  ghost function WaitingFor(s: Service, pcs: seq<Pc>): set<nat> {
    set t: nat | t < |pcs| && WaitsOn(pcs[t]) == Some(s)
  }

  ghost function ProxiedTo(s: Service, pcs: seq<Pc>): set<nat> {
    set t: nat | t < |pcs| && ProxiesTo(pcs[t]) == Some(s)
  }

  lemma {:induction false} WaitingSum(s: Service, pcs: seq<Pc>)
    ensures Sum(Waits(s), pcs) == |WaitingFor(s, pcs)|
  {
    hide WaitsOn, ProxiesTo;
    if pcs != [] {
      var n := |pcs| - 1;
      WaitingSum(s, pcs[..n]);
      var rest := WaitingFor(s, pcs[..n]);
      if WaitsOn(pcs[n]) == Some(s) {
        assert WaitingFor(s, pcs) == rest + {n};
      } else {
        assert WaitingFor(s, pcs) == rest;
      }
    }
  }

  lemma {:induction false} ProxiedSum(s: Service, pcs: seq<Pc>)
    ensures Sum(Proxies(s), pcs) == |ProxiedTo(s, pcs)|
  {
    hide WaitsOn, ProxiesTo;
    if pcs != [] {
      var n := |pcs| - 1;
      ProxiedSum(s, pcs[..n]);
      var rest := ProxiedTo(s, pcs[..n]);
      if ProxiesTo(pcs[n]) == Some(s) {
        assert ProxiedTo(s, pcs) == rest + {n};
      } else {
        assert ProxiedTo(s, pcs) == rest;
      }
    }
  }

  /** The counters are the numbers of connections in each phase. */
  lemma ConnectionsCounted(run: seq<State>, labels: seq<Label>, k: nat, s: Service)
    requires IsRun(run, labels) && k < |run|
    ensures StatsOf(run[k].m, s) == Stats(|ProxiedTo(s, run[k].threads)|, |WaitingFor(s, run[k].threads)|)
  {
    RunInv(run, labels, k);
    WaitingSum(s, run[k].threads);
    ProxiedSum(s, run[k].threads);
  }

  /** No decrement meets a zero counter, so the clamp is never taken. */
  lemma NeverClamps(run: seq<State>, labels: seq<Label>, k: nat, t: nat)
    requires IsRun(run, labels) && k < |run| && t < |run[k].threads|
    ensures match run[k].threads[t]
            case GivingUp(s) => StatsOf(run[k].m, s).waiting >= 1
            case Entering(s) => StatsOf(run[k].m, s).waiting >= 1
            case Departing(s) => StatsOf(run[k].m, s).proxied >= 1
            case _ => true
  {
    assert Books(run[k]) by {
      hide Books, SharedOk, ThreadsOk, HoldersExist;
      RunInv(run, labels, k);
    }
    hide Inv, IsRun;
    CountedNow(run[k], t);
    hide Books;
    match run[k].threads[t]
    case GivingUp(s) => assert Weight(Waits(s), run[k].threads[t]) == 1;
    case Entering(s) => assert Weight(Waits(s), run[k].threads[t]) == 1;
    case Departing(s) => assert Weight(Proxies(s), run[k].threads[t]) == 1;
    case _ =>
  }

  /** No goroutine forwards a connection to `q`. */
  ghost predicate Unused(s: State, q: Service) {
    forall t :: 0 <= t < |s.threads| ==> ProxiesTo(s.threads[t]) != Some(q)
  }

  /** A service may be stopped at an instant if and only if nobody manages the instance and no goroutine forwards a
      connection to the service. */
  lemma StoppableMeansUnused(run: seq<State>, labels: seq<Label>, k: nat, q: Service, i: nat)
    requires IsRun(run, labels) && k < |run| && i < |run[k].m.instances|
    ensures CanBeStopped(run[k].m, q, i) <==> run[k].m.instances[i].holder.None? && Unused(run[k], q)
  {
    hide IsRun, ProxiesTo, WaitingFor;
    var s := run[k];
    ConnectionsCounted(run, labels, k, q);
    assert StatsOf(s.m, q).proxied == 0 <==> ProxiedTo(q, s.threads) == {};
    if StatsOf(s.m, q).proxied == 0 {
      forall t | 0 <= t < |s.threads| ensures ProxiesTo(s.threads[t]) != Some(q) {
        assert t !in ProxiedTo(q, s.threads);
      }
    }
  }

  /** A goroutine that leaves both counters at zero broadcasts before it does anything else. */
  lemma ZeroIsAnnounced(run: seq<State>, labels: seq<Label>, k: nat, t: nat, a: Action, s: Service)
    requires IsRun(run, labels) && k < |labels| && labels[k] == Do(t, a) && t < |run[k].threads|
    requires StatsOf(run[k].m, s) != Stats(0, 0) && StatsOf(run[k + 1].m, s) == Stats(0, 0)
    ensures t < |run[k + 1].threads| && run[k + 1].threads[t].Notifying? && run[k + 1].threads[t].svc == s
  {
    RunInv(run, labels, k);
    assert Next(run[k], labels[k], run[k + 1]);
    ZeroStep(run[k], t, a, run[k + 1], s);
  }

  /** The broadcast that follows: every waiter on a resource of the service has a signal. */
  lemma AnnouncementHeard(run: seq<State>, labels: seq<Label>, k: nat, t: nat, a: Action, r: Resource, q: Service)
    requires IsRun(run, labels) && k < |labels| && labels[k] == Do(t, a) && t < |run[k].threads|
    requires run[k].threads[t].Notifying? && r in run[k].m.cfg.Requirement(run[k].threads[t].svc)
    requires Entry(run[k].m.change, r, q).Some?
    ensures Entry(run[k].m.change, r, q).value < |run[k + 1].m.channels|
    ensures run[k + 1].m.channels[Entry(run[k].m.change, r, q).value].value.Some?
  {
    RunInv(run, labels, k);
    ChangeEntry(run[k].m, r, q);
    hide Inv;
    assert Next(run[k], labels[k], run[k + 1]);
    var m, s := run[k].m, run[k].threads[t].svc;
    assert run[k + 1].m == Broadcast(m, m.cfg.Requirement(s).Keys, true);
    assert Entry(m.change, r, q).value in Listeners(m.change, m.cfg.Requirement(s).Keys);
  }

  lemma ZeroStep(s: State, t: nat, a: Action, s': State, q: Service)
    requires Inv(s) && Next(s, Do(t, a), s')
    requires StatsOf(s.m, q) != Stats(0, 0) && StatsOf(s'.m, q) == Stats(0, 0)
    ensures s'.threads[t].Notifying? && s'.threads[t].svc == q
  {
    var pc, pc', spawn := s.threads[t], s'.threads[t], s'.threads[|s.threads|..];
    assert Step(t, a, s.m, pc, s'.m, pc', spawn);
    assert Before(t, s.m, pc);
    hide SharedOk, Known, ThreadOk, HoldersExist, StartStep, ClientStep;
    CountedNow(s, t);
    StepBalanced(t, a, s.m, pc, s'.m, pc', spawn);
    assert CountDelta(s.m, s'.m, pc, pc');
    hide UseDelta, DebtDelta, CapKept;
    if pc.Arriving? || pc.Entering? || pc.Departing? || pc.GivingUp? {
      ZeroClient(t, a, s.m, pc, s'.m, pc', spawn, q);
    } else {
      SameCounts(t, a, s.m, pc, s'.m, pc', spawn);
    }
  }

  lemma ZeroClient(t: nat, a: Action, m: Shared, pc: Pc, m': Shared, pc': Pc, spawn: seq<Pc>, q: Service)
    requires pc.Arriving? || pc.Entering? || pc.Departing? || pc.GivingUp?
    requires Step(t, a, m, pc, m', pc', spawn) && StatsOf(m, q) != Stats(0, 0) && StatsOf(m', q) == Stats(0, 0)
    ensures pc'.Notifying? && pc'.svc == q
  {
    hide StartStep;
    assert ClientStep(t, a, m, pc, m', pc', spawn);
    match pc
    case Arriving(s) => assert m'.stats.Keys == m.stats.Keys + {s};
    case Entering(s) => assert m'.stats.Keys == m.stats.Keys + {s};
    case Departing(s) => assert m'.stats.Keys == m.stats.Keys + {s};
    case GivingUp(s) => assert m'.stats.Keys == m.stats.Keys + {s};
  }

  /** Other steps move no counter. */
  lemma SameCounts(t: nat, a: Action, m: Shared, pc: Pc, m': Shared, pc': Pc, spawn: seq<Pc>)
    requires Step(t, a, m, pc, m', pc', spawn)
    requires !pc.Arriving? && !pc.Entering? && !pc.Departing? && !pc.GivingUp?
    ensures m'.stats == m.stats
  {
    hide StartStep, ClientStep, CleanUp, Resume;
    if pc.Starting? {
      assert m'.stats == m.stats by {
        hide *;
        if pc.phase.Pass? || pc.phase.Pending? || pc.phase.PendingDone? || pc.phase.Lacking? || pc.phase.Parking?
           || pc.phase.Waiting? || pc.phase.Leaving? {
          LoopStats(t, a, m, pc.svc, pc.b, pc.phase, m', pc', spawn);
        } else {
          CommandStats(t, a, m, pc.svc, pc.b, pc.phase, m', pc', spawn);
        }
      }
    } else if pc.StopLookup? || pc.StopWait? || pc.StopHold? || pc.StopClean? || pc.Unlocking? || pc.IdleFired?
              || pc.Reaping? || pc.Reaped? || pc.Returning? {
      OtherStats(t, a, m, pc, m', pc', spawn);
    } else {
      ClientUnbooked(t, a, m, pc, m', pc', spawn);
    }
  }

  lemma OtherStats(t: nat, a: Action, m: Shared, pc: Pc, m': Shared, pc': Pc, spawn: seq<Pc>)
    requires Step(t, a, m, pc, m', pc', spawn)
    requires pc.StopLookup? || pc.StopWait? || pc.StopHold? || pc.StopClean? || pc.Unlocking? || pc.IdleFired?
             || pc.Reaping? || pc.Reaped? || pc.Returning?
    ensures m'.stats == m.stats
  {
    hide StartStep, ClientStep, CleanUp, Resume, CanBeStopped, ResumePc, UnlockedPc, SetInstance;
    if pc.StopLookup? {
      ResumeStats(m, pc.k);
    } else if pc.Unlocking? {
      assert m'.stats == m.stats by {
        hide Resume, SetInstance;
        SetStats(m, pc.i, m.instances[pc.i].(holder := None));
        if pc.after.ToCont? {
          ResumeStats(Free(m, pc.i), pc.after.k);
        }
      }
    } else if pc.StopClean? {
      CleanUpStats(m, pc.i);
    } else if pc.Reaped? {
      CleanUpStats(m, pc.i);
    } else if pc.StopWait? {
      SetStats(m, pc.i, m.instances[pc.i].(holder := Some(t)));
    }
  }

  lemma SetStats(m: Shared, i: nat, x: Instance)
    requires i < |m.instances|
    ensures SetInstance(m, i, x).stats == m.stats
  {
  }

  lemma ResumeStats(m: Shared, k: Cont)
    ensures Resume(m, k).stats == m.stats
  {
  }

  lemma CleanUpStats(m: Shared, i: nat)
    requires i < |m.instances|
    ensures CleanUp(m, i).stats == m.stats
  {
  }

  lemma LoopStats(t: nat, a: Action, m: Shared, s: Service, b: nat, phase: Phase, m': Shared, pc': Pc, spawn: seq<Pc>)
    requires b < |m.instances| && StartStep(t, a, m, s, b, phase, m', pc', spawn)
    requires phase.Pass? || phase.Pending? || phase.PendingDone? || phase.Lacking? || phase.Parking? || phase.Waiting?
             || phase.Leaving?
    ensures m'.stats == m.stats
  {
    hide IsVictim, Eligible, PassStep, PendingStep, Unregister, Register;
    match phase
    case Pass(recheck) => PassStats(a, m, s, b, recheck, m', pc');
    case Pending(chans, todo) => PendingStats(a, m, s, b, chans, todo, m', pc');
    case _ =>
  }

  lemma CommandStats(t: nat, a: Action, m: Shared, s: Service, b: nat, phase: Phase, m': Shared, pc': Pc,
                     spawn: seq<Pc>)
    requires b < |m.instances| && StartStep(t, a, m, s, b, phase, m', pc', spawn)
    requires !phase.Pass? && !phase.Pending? && !phase.PendingDone? && !phase.Lacking? && !phase.Parking?
    requires !phase.Waiting? && !phase.Leaving?
    ensures m'.stats == m.stats
  {
    hide CleanUp, PassStep, PendingStep, Minus, IsVictim, Eligible;
    match phase
    case Refused => CleanUpStats(m, b);
    case SpawnFailed => CleanUpStats(GiveBack(m, s), b);
    case _ =>
  }

  lemma PassStats(a: Action, m: Shared, s: Service, b: nat, recheck: bool, m': Shared, pc': Pc)
    requires b < |m.instances| && PassStep(a, m, s, b, recheck, m', pc')
    ensures m'.stats == m.stats
  {
    hide PassCommits, PassAsks, PassLacks, FreshChannels, Unregister;
  }

  lemma PendingStats(a: Action, m: Shared, s: Service, b: nat, chans: map<Resource, nat>, todo: set<Resource>,
                     m': Shared, pc': Pc)
    requires PendingStep(a, m, s, b, chans, todo, m', pc')
    ensures m'.stats == m.stats
  {
  }
}
