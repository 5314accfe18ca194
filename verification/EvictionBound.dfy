/** How many victims a reservation can choose, in any run. */
module EvictionBound {
  import opened Model
  import opened Machine
  import opened Invariant
  import opened Steps
  import opened Reachable
  import opened Interference
  import opened Scheduling
  import opened EvictionTheorems

  /** The registered service that the eviction under way at `pc` is about to take out of the registry. */
  function Doomed(m: Shared, pc: Pc): set<Service> {
    match pc
    case StopLookup(v, k) => if k.AfterEvict? then {v} else {}
    case StopWait(v, i, k) => if k.AfterEvict? && v in m.running && m.running[v] == i then {v} else {}
    case StopHold(v, i, k) => if k.AfterEvict? && v in m.running && m.running[v] == i then {v} else {}
    case StopClean(v, i, k) => if k.AfterEvict? && v in m.running && m.running[v] == i then {v} else {}
    case _ => {}
  }

  /** The registered services that it is not about. */
  function Spare(m: Shared, pc: Pc): set<Service> {
    m.running.Keys - Doomed(m, pc)
  }

  // ---------------------------------------------------------------- steps of the others

  /** What is registered as before is spared as before. */
  lemma SpareStays(m: Shared, m': Shared, pc: Pc, v: Service)
    requires v in Spare(m', pc) && v in m.running && v in m'.running && m'.running[v] == m.running[v]
    ensures v in Spare(m, pc)
  {
  }

  lemma ForeignSpare(m: Shared, m': Shared, pc: Pc)
    requires Renews(m, m') && SharedOk(m')
    ensures |Spare(m', pc)| + |m.instances| <= |Spare(m, pc)| + |m'.instances|
  {
    hide SharedOk;
    forall v | v in Spare(m', pc) && m'.running[v] < |m.instances| ensures v in Spare(m, pc) {
      SpareStays(m, m', pc, v);
    }
    hide Renews, Doomed;
    Turnover(m, m', Spare(m', pc), Spare(m, pc));
  }

  // ---------------------------------------------------------------- steps of the goroutine itself

  /** A step counts if it chooses a victim; a failed kill gives one back. */
  ghost predicate Counts(a: Action, m: Shared, pc: Pc, m': Shared, pc': Pc) {
    |Spare(m', pc')| + (if a.EvictPick? then 1 else 0) + |m.instances|
    <= |Spare(m, pc)| + (if a == Kill(false) then 1 else 0) + |m'.instances|
  }

  lemma LookupCounts(t: nat, a: Action, m: Shared, pc: Pc, m': Shared, pc': Pc, spawn: seq<Pc>)
    requires Step(t, a, m, pc, m', pc', spawn) && pc.StopLookup? && Removing(pc).Some?
    ensures !a.EvictPick? && Spare(m', pc') == Spare(m, pc)
  {
    hide StartStep, ClientStep, Resume;
    ResumeMild(m, pc.k);
  }

  lemma WaitCounts(t: nat, a: Action, m: Shared, pc: Pc, m': Shared, pc': Pc, spawn: seq<Pc>)
    requires Step(t, a, m, pc, m', pc', spawn) && pc.StopWait? && Removing(pc).Some?
    ensures !a.EvictPick? && Spare(m', pc') == Spare(m, pc)
  {
    hide StartStep, ClientStep, Acquire;
    AcquireRunning(m, pc.i, t);
  }

  lemma HoldCounts(t: nat, a: Action, m: Shared, pc: Pc, m': Shared, pc': Pc, spawn: seq<Pc>)
    requires Step(t, a, m, pc, m', pc', spawn) && pc.StopHold? && Removing(pc).Some?
    ensures !a.EvictPick? && |Spare(m', pc')| <= |Spare(m, pc)| + if a == Kill(false) then 1 else 0
  {
    assert a.Kill? && m' == m && (a.ok ==> pc' == StopClean(pc.victim, pc.i, pc.k));
    hide Step, Removing;
    if a == Kill(false) {
      OneMore(m, pc, pc');
    }
  }

  lemma OneMore(m: Shared, pc: Pc, pc': Pc)
    requires pc.StopHold?
    ensures |Spare(m, pc')| <= |Spare(m, pc)| + 1
  {
    Fewer(Spare(m, pc'), Spare(m, pc) + {pc.victim});
  }

  lemma CleanCounts(t: nat, a: Action, m: Shared, pc: Pc, m': Shared, pc': Pc, spawn: seq<Pc>)
    requires SharedOk(m) && PcOk(m, pc) && Step(t, a, m, pc, m', pc', spawn) && pc.StopClean? && Removing(pc).Some?
    ensures !a.EvictPick? && Spare(m', pc') <= Spare(m, pc)
  {
    hide StartStep, ClientStep, CleanUp, SharedOk, ContOk;
    CleanUpMild(m, pc.i);
    if pc.victim in m.running && m.running[pc.victim] == pc.i {
      CleanUpLeaves(m, pc.victim, pc.i);
    }
  }

  lemma UnlockCounts(t: nat, a: Action, m: Shared, pc: Pc, m': Shared, pc': Pc, spawn: seq<Pc>)
    requires Step(t, a, m, pc, m', pc', spawn) && pc.Unlocking? && Removing(pc).Some?
    ensures !a.EvictPick? && Spare(m', pc') == Spare(m, pc)
  {
    hide StartStep, ClientStep, Free, Resume;
    UnlockMild(m, pc.i, pc.after);
  }

  /** The steps of a stop. */
  lemma StopCounts(t: nat, a: Action, m: Shared, pc: Pc, m': Shared, pc': Pc, spawn: seq<Pc>)
    requires SharedOk(m) && PcOk(m, pc) && Step(t, a, m, pc, m', pc', spawn) && Removing(pc).Some?
    requires |m.instances| <= |m'.instances|
    ensures Counts(a, m, pc, m', pc')
  {
    hide SharedOk, PcOk, Step, Spare;
    if pc.StopLookup? {
      LookupCounts(t, a, m, pc, m', pc', spawn);
    } else if pc.StopWait? {
      WaitCounts(t, a, m, pc, m', pc', spawn);
    } else if pc.StopHold? {
      HoldCounts(t, a, m, pc, m', pc', spawn);
    } else if pc.StopClean? {
      CleanCounts(t, a, m, pc, m', pc', spawn);
      Fewer(Spare(m', pc'), Spare(m, pc));
    } else {
      UnlockCounts(t, a, m, pc, m', pc', spawn);
    }
  }

  lemma PickCounts(a: Action, m: Shared, pc: Pc, m': Shared, pc': Pc)
    requires Chooses(a, m, pc, m', pc')
    ensures Counts(a, m, pc, m', pc')
  {
    assert Eligible(m, pc.svc, pc.phase.r, a.now, a.v);
    hide Eligible, IsVictim;
    assert Spare(m, pc) == m.running.Keys && a.v in Spare(m, pc);
    assert Spare(m', pc') == Spare(m, pc) - {a.v};
  }

  lemma NothingDoomed(m: Shared, pc: Pc)
    requires Removing(pc) == None
    ensures Spare(m, pc) == m.running.Keys
  {
  }

  lemma OwnCounts(t: nat, a: Action, m: Shared, pc: Pc, m': Shared, pc': Pc, spawn: seq<Pc>)
    requires SharedOk(m) && PcOk(m, pc) && SharedOk(m') && Step(t, a, m, pc, m', pc', spawn)
    requires |m.instances| <= |m'.instances|
    ensures Counts(a, m, pc, m', pc')
  {
    hide SharedOk, PcOk, Step, Spare, Counts, Chooses, EvictOk, Renews;
    if Removing(pc).Some? {
      StopCounts(t, a, m, pc, m', pc', spawn);
    } else {
      OnlyPicksRemove(t, a, m, pc, m', pc', spawn);
      if Chooses(a, m, pc, m', pc') {
        PickCounts(a, m, pc, m', pc');
      } else {
        DoRenews(t, a, m, pc, m', pc', spawn);
        PlainCounts(a, m, pc, m', pc');
      }
    }
  }

  lemma PlainCounts(a: Action, m: Shared, pc: Pc, m': Shared, pc': Pc)
    requires Renews(m, m') && SharedOk(m') && Removing(pc) == Removing(pc') == None && !a.EvictPick?
    ensures Counts(a, m, pc, m', pc')
  {
    hide Renews, SharedOk, Removing;
    NothingDoomed(m, pc);
    NothingDoomed(m', pc');
    Renewed(m, m');
  }

  // ---------------------------------------------------------------- runs

  lemma StepCounts(run: seq<State>, labels: seq<Label>, k: nat, t: nat)
    requires IsRun(run, labels) && k < |labels| && t < |run[k].threads|
    ensures t < |run[k + 1].threads|
    ensures |Spare(run[k + 1].m, run[k + 1].threads[t])| + (if Picks(labels[k], t) then 1 else 0)
            + |run[k].m.instances|
            <= |Spare(run[k].m, run[k].threads[t])| + (if Fails(labels[k], t) then 1 else 0)
               + |run[k + 1].m.instances|
  {
    hide Inv, Next, Spare;
    RunInv(run, labels, k);
    RunInv(run, labels, k + 1);
    assert Next(run[k], labels[k], run[k + 1]);
    hide IsRun;
    var s, s', l := run[k], run[k + 1], labels[k];
    ThreadFacts(s, t);
    SharedFacts(s');
    if l.Do? && l.t == t {
      OwnStepCounts(s, l.a, s', t);
    } else {
      ForeignStays(s, l, s', t);
      ForeignKeeps(s, l, s', t);
      ForeignSpare(s.m, s'.m, s.threads[t]);
    }
  }

  lemma SharedFacts(s: State)
    requires Inv(s)
    ensures SharedOk(s.m)
  {
    hide SharedOk;
  }

  lemma ForeignStays(s: State, l: Label, s': State, t: nat)
    requires Next(s, l, s') && t < |s.threads| && Foreign(l, t)
    ensures t < |s'.threads| && s'.threads[t] == s.threads[t]
  {
    hide Step, Occur;
  }

  lemma OwnStepCounts(s: State, a: Action, s': State, t: nat)
    requires Inv(s) && Inv(s') && Next(s, Do(t, a), s') && t < |s.threads|
    ensures t < |s'.threads| && Counts(a, s.m, s.threads[t], s'.m, s'.threads[t])
  {
    var pc, pc', spawn := s.threads[t], s'.threads[t], s'.threads[|s.threads|..];
    assert Step(t, a, s.m, pc, s'.m, pc', spawn);
    hide Next, Step, Counts, Inv;
    ThreadFacts(s, t);
    SharedFacts(s');
    assert |s.m.instances| <= |s'.m.instances| by {
      var pc, pc', spawn := s.threads[t], s'.threads[t], s'.threads[|s.threads|..];
      assert Step(t, a, s.m, pc, s'.m, pc', spawn) && Before(t, s.m, pc);
      hide Step, Next, SharedOk, ThreadOk, Known, Newcomers, HoldersExist, Books;
      StepOk(t, a, s.m, pc, s'.m, pc', spawn);
    }
    OwnCounts(t, a, s.m, pc, s'.m, pc', spawn);
  }

  /** The measure: each choice leaves one service less, and only a failed kill or a birth adds one. */
  lemma {:induction false} EvictionsCounted(run: seq<State>, labels: seq<Label>, i: nat, j: nat, t: nat)
    requires IsRun(run, labels) && i <= j < |run| && t < |run[i].threads|
    ensures j <= |labels| && t < |run[j].threads|
    ensures Picked(labels, i, j, t) + |Spare(run[j].m, run[j].threads[t])| + |run[i].m.instances|
            <= |Spare(run[i].m, run[i].threads[t])| + Failed(labels, i, j, t) + |run[j].m.instances|
  {
    hide Spare, Init, Next;
    if i < j {
      EvictionsCounted(run, labels, i, j - 1, t);
      StepCounts(run, labels, j - 1, t);
    }
  }

  /** In any stretch of any run a goroutine chooses at most as many victims as services were registered,
      kills of its own failed, and services were started meanwhile. */
  lemma {:induction false} EvictionsBounded(run: seq<State>, labels: seq<Label>, i: nat, j: nat, t: nat)
    requires IsRun(run, labels) && i <= j < |run| && t < |run[i].threads|
    ensures j <= |labels|
    ensures Picked(labels, i, j, t) + |run[i].m.instances|
            <= |run[i].m.running| + Failed(labels, i, j, t) + |run[j].m.instances|
  {
    EvictionsCounted(run, labels, i, j, t);
    hide IsRun, Doomed;
    Fewer(Spare(run[i].m, run[i].threads[t]), run[i].m.running.Keys);
    assert |run[i].m.running.Keys| == |run[i].m.running|;
  }
}
