/** How far the start of an instance has come, read off the labels of a run, and what its idle timer may do. */
module Stages {
  import opened Model
  import opened Machine
  import opened Invariant
  import opened Reachable
  import opened LedgerTheorems
  import opened EvictionTheorems
  import opened Records

  /** Step `l` is the action `a` of the start of instance `i`. */
  predicate Takes(s: State, l: Label, i: nat, a: Action) {
    l.Do? && l.a == a && l.t < |s.threads| && s.threads[l.t].Starting? && s.threads[l.t].b == i
  }

  /** The start of instance `i` has taken the action `a` before state `k`. */
  ghost predicate Passed(run: seq<State>, labels: seq<Label>, k: nat, i: nat, a: Action)
    requires k < |run| == |labels| + 1
  {
    exists p :: 0 <= p < k && Takes(run[p], labels[p], i, a)
  }

  lemma PassedNext(run: seq<State>, labels: seq<Label>, k: nat, i: nat, a: Action)
    requires 0 < k < |run| == |labels| + 1
    ensures Passed(run, labels, k, i, a)
            <==> Passed(run, labels, k - 1, i, a) || Takes(run[k - 1], labels[k - 1], i, a)
  {
    hide Takes;
    if Passed(run, labels, k - 1, i, a) {
      var p :| 0 <= p < k - 1 && Takes(run[p], labels[p], i, a);
      assert 0 <= p < k;
    }
    if Takes(run[k - 1], labels[k - 1], i, a) {
      assert Takes(run[k - 1], labels[k - 1], i, a);
    }
  }

  lemma TakesBorn(s: State, l: Label, s': State, i: nat)
    requires Next(s, l, s')
    ensures Takes(s, l, i, Confirm) || Takes(s, l, i, Ready) ==> i < |s.m.instances|
  {
    hide StartStep, ClientStep;
  }

  lemma StageNow(s: State, l: Label, s': State, i: nat)
    requires Next(s, l, s')
    ensures Takes(s, l, i, Confirm) || Takes(s, l, i, Ready) ==> i < |s.m.instances|
    ensures |s.m.instances| <= |s'.m.instances|
    ensures i < |s'.m.instances| ==>
              && (s'.m.instances[i].waiting
                  <==> (i < |s.m.instances| ==> s.m.instances[i].waiting && !Takes(s, l, i, Confirm)))
              && (s'.m.instances[i].ready
                  <==> i < |s.m.instances| && (s.m.instances[i].ready || Takes(s, l, i, Ready)))
  {
    RecordNext(s, l, s', i);
    TakesBorn(s, l, s', i);
    hide Next;
  }

  /** In every state of every run an instance is marked as waiting for resources until its start confirms the
      reservation, and is ready from the critical section that ends its start. */
  lemma {:induction false} StageIsHistory(run: seq<State>, labels: seq<Label>, k: nat, i: nat)
    requires IsRun(run, labels) && k < |run|
    ensures Passed(run, labels, k, i, Confirm)
            <==> i < |run[k].m.instances| && !run[k].m.instances[i].waiting
    ensures Passed(run, labels, k, i, Ready)
            <==> i < |run[k].m.instances| && run[k].m.instances[i].ready
  {
    if k > 0 {
      assert |run| == |labels| + 1;
      assert Next(run[k - 1], labels[k - 1], run[k - 1 + 1]);
      hide *;
      StageIsHistory(run, labels, k - 1, i);
      PassedNext(run, labels, k, i, Confirm);
      PassedNext(run, labels, k, i, Ready);
      StageNow(run[k - 1], labels[k - 1], run[k], i);
    }
  }

  // ---------------------------------------------------------------- the way of a connection

  /** A start is past its reservation, or a connection is past its look-up, on its way to the service or giving up. */
  predicate OnItsWay(pc: Pc) {
    match pc
    case Starting(_, _, phase) =>
      phase.Spawning? || phase.Spawned? || phase.Probing? || phase.Connecting? || phase.MakingReady?
    case Unlocking(_, _, after) => !after.ToCont?
    case _ =>
      pc.Tracking? || pc.Dialing? || pc.Restarting? || pc.Connected? || pc.Entering? || pc.Departing? || pc.GivingUp?
  }

  /** The actions that lead there, and from where. */
  predicate Leads(a: Action, c: Config, pc: Pc, pc': Pc) {
    match pc'
    case Starting(s, b, phase) =>
      (match phase
       case Spawning => a == Confirm && pc == Starting(s, b, Reserved)
       case Spawned => a == Spawn(true) && pc == Starting(s, b, Spawning)
       case Probing => a == SpawnRecord && pc == Starting(s, b, Spawned)
       case Connecting => a == Probe(true) && pc == Starting(s, b, Probing)
       case MakingReady => a == Connect(true) && pc == Starting(s, b, Connecting)
       case _ => true)
    case Unlocking(s, i, after) =>
      (match after
       case ToDial => a.Track? && pc == Tracking(s, i)
       case ToConnected => a == Ready && pc == Starting(s, i, MakingReady)
       case ToLookup => a == QueueRelease(false) && pc == Dequeued(s, i)
       case ToGiveUp =>
         || (a == QueueRelease(true) && pc == Dequeued(s, i)) || (a == Refuse && pc == Starting(s, i, Refused))
         || (a == SpawnCleanUp && pc == Starting(s, i, SpawnFailed))
       case ToAbort =>
         || (a == Probe(false) && pc == Starting(s, i, Probing))
         || (a == Connect(false) && pc == Starting(s, i, Connecting))
       case _ => true)
    case Tracking(s, i) => a == TryOk && pc == Trying(s, i)
    case Dialing(s) => a == Unlock && pc.Unlocking? && pc.svc == s && pc.after.ToDial?
    case Restarting(s) => a == Dial(false) && pc == Dialing(s) && s in c.restart
    case Connected(s) =>
      || (a == Dial(true) && pc == Dialing(s))
      || (a == Unlock && pc.Unlocking? && pc.svc == s && pc.after.ToConnected?)
    case Entering(s) => a.Used? && pc == Connected(s)
    case Departing(s) => a.Forwarded? && pc == Proxying(s)
    case GivingUp(s) =>
      || (a == QueueCancel && pc.Queued? && pc.svc == s) || (a == Dial(false) && pc == Dialing(s) && s !in c.restart)
      || (a.Create? && pc == Inserting(s)) || (a == ReturnShare && pc.Returning? && pc.svc == s)
      || (a == Unlock && pc.Unlocking? && pc.svc == s && pc.after.ToGiveUp?)
    case _ => true
  }

  lemma PassLeads(a: Action, m: Shared, s: Service, b: nat, recheck: bool, m': Shared, pc': Pc)
    requires b < |m.instances| && PassStep(a, m, s, b, recheck, m', pc')
    ensures !OnItsWay(pc')
  {
    hide PassCommits, PassLacks, PassAsks, FreshChannels, Asked, Commit, Unregister;
  }

  lemma LoopLeads(t: nat, a: Action, m: Shared, s: Service, b: nat, phase: Phase, m': Shared, pc': Pc, spawn: seq<Pc>)
    requires b < |m.instances| && StartStep(t, a, m, s, b, phase, m', pc', spawn)
    requires phase.Pending? || phase.PendingDone? || phase.Lacking? || phase.Parking? || phase.Waiting?
             || phase.Leaving?
    ensures !OnItsWay(pc')
  {
    hide IsVictim, Eligible, PassStep, CleanUp, MakeReady, Mark, SetCommand, GiveBack, Unregister, Enlist, Take;
  }

  lemma SpawnLeads(t: nat, a: Action, m: Shared, s: Service, b: nat, phase: Phase, m': Shared, pc': Pc, spawn: seq<Pc>)
    requires b < |m.instances| && StartStep(t, a, m, s, b, phase, m', pc', spawn)
    requires phase.Refused? || phase.Reserved? || phase.Spawning? || phase.SpawnFailed?
    ensures Leads(a, m.cfg, Starting(s, b, phase), pc')
  {
    hide PassStep, PendingStep, CleanUp, MakeReady, Mark, SetCommand, GiveBack;
  }

  lemma ProbeLeads(t: nat, a: Action, m: Shared, s: Service, b: nat, phase: Phase, m': Shared, pc': Pc, spawn: seq<Pc>)
    requires b < |m.instances| && StartStep(t, a, m, s, b, phase, m', pc', spawn)
    requires phase.Spawned? || phase.Probing? || phase.Connecting? || phase.MakingReady?
    ensures Leads(a, m.cfg, Starting(s, b, phase), pc')
  {
    hide PassStep, PendingStep, CleanUp, MakeReady, Mark, SetCommand, GiveBack;
  }

  lemma StopLeads(t: nat, a: Action, m: Shared, pc: Pc, m': Shared, pc': Pc, spawn: seq<Pc>)
    requires Step(t, a, m, pc, m', pc', spawn)
    requires pc.StopLookup? || pc.StopWait? || pc.StopHold? || pc.StopClean? || pc.Unlocking? || pc.IdleFired?
             || pc.Reaping? || pc.Reaped? || pc.Returning?
    ensures Leads(a, m.cfg, pc, pc')
  {
    hide StartStep, ClientStep, CleanUp, Resume, Free, Acquire, GiveBack, CanBeStopped;
  }

  lemma CountLeads(m: Shared, s: Service, next: Onward)
    ensures !OnItsWay(AfterCount(m, s, next)) && !OnItsWay(OnwardPc(s, next))
  {
  }

  lemma CountsLead(t: nat, a: Action, m: Shared, pc: Pc, m': Shared, pc': Pc, spawn: seq<Pc>)
    requires ClientStep(t, a, m, pc, m', pc', spawn)
    requires pc.Notifying? || pc.Arriving? || pc.Entering? || pc.Departing? || pc.GivingUp?
    ensures !OnItsWay(pc')
  {
    hide Count, Broadcast, AfterCount, OnwardPc, OnItsWay;
    CountLeads(m', pc.svc, if pc.Notifying? then pc.next else if pc.Arriving? then OnLookup
                           else if pc.Entering? then OnProxy else OnDone);
  }

  lemma LookupLeads(t: nat, a: Action, m: Shared, pc: Pc, m': Shared, pc': Pc, spawn: seq<Pc>)
    requires ClientStep(t, a, m, pc, m', pc', spawn)
    requires pc.LookingUp? || pc.Trying? || pc.Queued? || pc.Dequeued? || pc.Tracking?
    ensures Leads(a, m.cfg, pc, pc')
  {
    hide Acquire, TouchIf, Finds;
  }

  lemma ClientLeads(t: nat, a: Action, m: Shared, pc: Pc, m': Shared, pc': Pc, spawn: seq<Pc>)
    requires ClientStep(t, a, m, pc, m', pc', spawn)
    requires pc.Dialing? || pc.Restarting? || pc.Inserting? || pc.Connected? || pc.Proxying?
    ensures Leads(a, m.cfg, pc, pc')
  {
    hide TouchIf, Finds, Insert;
  }

  lemma StepLeads(t: nat, a: Action, m: Shared, pc: Pc, m': Shared, pc': Pc, spawn: seq<Pc>)
    requires Step(t, a, m, pc, m', pc', spawn) && OnItsWay(pc')
    ensures Leads(a, m.cfg, pc, pc')
  {
    hide StartStep, ClientStep, Leads, OnItsWay;
    if pc.Starting? {
      var phase := pc.phase;
      if phase.Pass? {
        StartPasses(t, a, m, pc.svc, pc.b, phase, m', pc', spawn);
        PassLeads(a, m, pc.svc, pc.b, phase.recheck, m', pc');
      } else if phase.Pending? || phase.PendingDone? || phase.Lacking? || phase.Parking? || phase.Waiting?
                || phase.Leaving? {
        LoopLeads(t, a, m, pc.svc, pc.b, phase, m', pc', spawn);
      } else if phase.Refused? || phase.Reserved? || phase.Spawning? || phase.SpawnFailed? {
        SpawnLeads(t, a, m, pc.svc, pc.b, phase, m', pc', spawn);
      } else {
        ProbeLeads(t, a, m, pc.svc, pc.b, phase, m', pc', spawn);
      }
    } else if pc.StopLookup? || pc.StopWait? || pc.StopHold? || pc.StopClean? || pc.Unlocking? || pc.IdleFired?
              || pc.Reaping? || pc.Reaped? || pc.Returning? {
      hide Step;
      StopLeads(t, a, m, pc, m', pc', spawn);
    } else if pc.Notifying? || pc.Arriving? || pc.Entering? || pc.Departing? || pc.GivingUp? {
      CountsLead(t, a, m, pc, m', pc', spawn);
    } else if pc.LookingUp? || pc.Trying? || pc.Queued? || pc.Dequeued? || pc.Tracking? {
      LookupLeads(t, a, m, pc, m', pc', spawn);
    } else {
      ClientLeads(t, a, m, pc, m', pc', spawn);
    }
  }

  /** A start comes to each of its stages by the action that leads there from the stage before: it confirms what it
      reserved, spawns, records the command, and goes on only after a probe and then a connection that succeeded. A
      connection comes to the service by its own start, or by a look-up, the mutex and a dial that succeeded. */
  lemma {:induction false} Origin(run: seq<State>, labels: seq<Label>, k: nat, t: nat) returns (p: nat)
    requires IsRun(run, labels) && k < |run| && t < |run[k].threads| && OnItsWay(run[k].threads[t])
    ensures p < k && labels[p].Do? && labels[p].t == t && t < |run[p].threads|
    ensures Leads(labels[p].a, run[p].m.cfg, run[p].threads[t], run[k].threads[t])
  {
    NotAtStart(run, labels, k, t);
    assert Next(run[k - 1], labels[k - 1], run[k - 1 + 1]);
    assert |run| == |labels| + 1;
    hide *;
    OriginNow(run[k - 1], labels[k - 1], run[k], t);
    if labels[k - 1].Do? && labels[k - 1].t == t {
      p := k - 1;
    } else {
      p := Origin(run, labels, k - 1, t);
    }
  }

  lemma OriginNow(s: State, l: Label, s': State, t: nat)
    requires Next(s, l, s') && t < |s'.threads| && OnItsWay(s'.threads[t])
    ensures t < |s.threads|
    ensures if l.Do? && l.t == t then Leads(l.a, s.m.cfg, s.threads[t], s'.threads[t])
            else s.threads[t] == s'.threads[t]
  {
    hide Leads, Step;
    if l.Do? && l.t == t {
      StepLeads(t, l.a, s.m, s.threads[t], s'.m, s'.threads[t], s'.threads[|s.threads|..]);
    } else {
      ThreadStays(s, l, s', t);
    }
  }

  // ---------------------------------------------------------------- idle timers

  /** A step that cleans up instance `i`. */
  predicate Releases(s: State, s': State, i: nat) {
    i < |s'.m.instances| && s'.m.instances[i].released && (i < |s.m.instances| ==> !s.m.instances[i].released)
  }

  ghost predicate Intact(run: seq<State>, p: nat, k: nat, i: nat)
    requires k < |run|
  {
    forall q :: p <= q < k ==> !Releases(run[q], run[q + 1], i)
  }

  /** The start of `i` ended well, and it was not cleaned up since. */
  ghost predicate Armed(run: seq<State>, labels: seq<Label>, k: nat, i: nat)
    requires k < |run| == |labels| + 1
  {
    exists p: nat :: p < k && Takes(run[p], labels[p], i, Ready) && Intact(run, p, k, i)
  }

  lemma IntactNext(run: seq<State>, p: nat, k: nat, i: nat)
    requires 0 < k < |run| && p < k
    ensures Intact(run, p, k, i) <==> Intact(run, p, k - 1, i) && !Releases(run[k - 1], run[k], i)
  {
    hide Releases;
    assert run[k - 1 + 1] == run[k];
    if Intact(run, p, k, i) {
      assert !Releases(run[k - 1], run[k - 1 + 1], i);
    }
  }

  lemma TimerNow(s: State, l: Label, s': State, i: nat)
    requires Next(s, l, s')
    ensures Takes(s, l, i, Ready) ==> i < |s.m.instances|
    ensures |s.m.instances| <= |s'.m.instances|
    ensures i < |s'.m.instances| ==>
              (s'.m.instances[i].timer
               <==> i < |s.m.instances| && (s.m.instances[i].timer || Takes(s, l, i, Ready)) && !Releases(s, s', i))
  {
    RecordNext(s, l, s', i);
    TakesBorn(s, l, s', i);
    hide Next;
  }

  /** In every state of every run the idle timer of an instance is set if and only if its start ended well and it was
      not cleaned up since. */
  lemma {:induction false} TimerIsHistory(run: seq<State>, labels: seq<Label>, k: nat, i: nat)
    requires IsRun(run, labels) && k < |run|
    ensures Armed(run, labels, k, i) <==> i < |run[k].m.instances| && run[k].m.instances[i].timer
  {
    if k > 0 {
      hide Init, Next, Takes, Armed, Releases, Intact;
      TimerIsHistory(run, labels, k - 1, i);
      assert Next(run[k - 1], labels[k - 1], run[k - 1 + 1]);
      assert Armed(run, labels, k, i)
             <==> && !Releases(run[k - 1], run[k], i)
                  && (Armed(run, labels, k - 1, i) || Takes(run[k - 1], labels[k - 1], i, Ready)) by {
        forall p: nat | p < k
          ensures Intact(run, p, k, i) <==> Intact(run, p, k - 1, i) && !Releases(run[k - 1], run[k], i)
        {
          IntactNext(run, p, k, i);
        }
        assert Intact(run, k - 1, k - 1, i);
        hide Takes, Releases, Intact;
      }
      TimerNow(run[k - 1], labels[k - 1], run[k], i);
    }
  }

  lemma {:induction false} IntactKeeps(run: seq<State>, labels: seq<Label>, p: nat, k: nat, i: nat)
    requires IsRun(run, labels) && p <= k < |run| && i < |run[p].m.instances| && Intact(run, p, k, i)
    ensures i < |run[k].m.instances| && run[k].m.instances[i].released == run[p].m.instances[i].released
  {
    if p < k {
      hide Init, Next, Intact;
      IntactNext(run, p, k, i);
      IntactKeeps(run, labels, p, k - 1, i);
      assert Next(run[k - 1], labels[k - 1], run[k - 1 + 1]);
      RecordNext(run[k - 1], labels[k - 1], run[k], i);
    }
  }

  /** An idle timer that fires stops its service if and only if the instance ended its start well and was not cleaned up
      since, nobody manages it and no connection is forwarded to the service. The instance is then one that is still
      registered, unless it was cleaned up before its start ended, at `p`. */
  lemma IdleStops(run: seq<State>, labels: seq<Label>, k: nat, t: nat, a: Action) returns (p: nat)
    requires IsRun(run, labels) && k < |labels| && labels[k] == Do(t, a)
    requires t < |run[k].threads| && run[k].threads[t].IdleFired?
    ensures run[k + 1].m == run[k].m && t < |run[k + 1].threads|
    ensures var q, i, m := run[k].threads[t].svc, run[k].threads[t].i, run[k].m;
            && i < |m.instances| && m.instances[i].svc == q
            && run[k + 1].threads[t]
               == (if Armed(run, labels, k, i) && m.instances[i].holder.None? && Unused(run[k], q)
                   then StopLookup(q, AfterIdle) else Done)
            && (Armed(run, labels, k, i) ==>
                  && p < k && Takes(run[p], labels[p], i, Ready) && i < |run[p].m.instances|
                  && m.instances[i].released == run[p].m.instances[i].released)
            && (!m.instances[i].released ==> q in m.running && m.running[q] == i)
  {
    var q, i, m := run[k].threads[t].svc, run[k].threads[t].i, run[k].m;
    assert Next(run[k], labels[k], run[k + 1]);
    IdleFacts(run, labels, k, t);
    hide *;
    StoppableMeansUnused(run, labels, k, q, i);
    TimerIsHistory(run, labels, k, i);
    p := 0;
    if Armed(run, labels, k, i) {
      p := ArmedSince(run, labels, k, i);
    }
  }

  lemma IdleFacts(run: seq<State>, labels: seq<Label>, k: nat, t: nat)
    requires IsRun(run, labels) && k < |run| && t < |run[k].threads| && run[k].threads[t].IdleFired?
    ensures var q, i, m := run[k].threads[t].svc, run[k].threads[t].i, run[k].m;
            && i < |m.instances| && m.instances[i].svc == q
            && (!m.instances[i].released ==> q in m.running && m.running[q] == i)
  {
    RunInv(run, labels, k);
    assert ThreadOk(run[k].m, t, run[k].threads[t]) && RegistryOk(run[k].m);
    hide Inv, IsRun;
  }

  lemma ArmedSince(run: seq<State>, labels: seq<Label>, k: nat, i: nat) returns (p: nat)
    requires IsRun(run, labels) && k < |run| && i < |run[k].m.instances| && Armed(run, labels, k, i)
    ensures p < k && Takes(run[p], labels[p], i, Ready) && i < |run[p].m.instances|
    ensures run[k].m.instances[i].released == run[p].m.instances[i].released
  {
    hide Init, Next, Takes, Intact;
    p :| p < k && Takes(run[p], labels[p], i, Ready) && Intact(run, p, k, i);
    assert Next(run[p], labels[p], run[p + 1]);
    TakesBorn(run[p], labels[p], run[p + 1], i);
    IntactKeeps(run, labels, p, k, i);
  }
}
