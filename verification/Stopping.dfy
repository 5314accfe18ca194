/** stopService as the program has it. It blocks on the victim's manageMutex and on the end of its
    process, and the other goroutines move before each of its critical sections. */
module Stopping {
  import opened Model
  import opened Machine
  import opened Invariant
  import opened Steps
  import opened Manager
  import opened Scheduling

  /** How a stop ends: nobody was registered, the instance was cleaned up, the kill failed, or the stop
      still waits for the manageMutex. */
  datatype Stop = Missing | CleanedUp | KillFailed | Blocked

  /** The effect of a stop whose kill succeeds, when nobody else moves. */
  function Killed(m: Shared, v: Service, me: nat): (m': Shared)
    requires v in m.running ==> m.running[v] < |m.instances|
    ensures |m'.instances| == |m.instances|
  {
    if v !in m.running then m
    else
      var i := m.running[v];
      Free(CleanUp(Acquire(m, i, me), i), i)
  }

  /** Nobody manages the registered instance of `v`. */
  predicate Idle(m: Shared, v: Service) {
    v in m.running ==> m.running[v] < |m.instances| && m.instances[m.running[v]].holder.None?
  }

  /** Every instance of `v` that `m` had is released in `m'`. */
  ghost predicate AllReleased(m: Shared, m': Shared, v: Service) {
    forall b :: 0 <= b < |m.instances| && m.instances[b].svc == v ==> b < |m'.instances| && m'.instances[b].released
  }

  // ---------------------------------------------------------------- the critical sections

  /** Lock: until the manageMutex is free, for at most `patience` looks at it. */
  method AwaitManage(rm: ResourceManager, me: nat, v: Service, i: nat, k: Cont, patience: nat, ghost limit: nat,
                     ghost alone: bool)
    returns (free: bool)
    requires At(rm, me, StopWait(v, i, k))
    modifies rm
    ensures At(rm, me, StopWait(v, i, k)) && i < |rm.instances| && (free ==> rm.instances[i].holder.None?)
    ensures Evolves(old(rm.Value()), rm.Value(), limit)
    ensures alone ==> rm.Value() == old(rm.Value()) && (rm.instances[i].holder.None? ==> free)
  {
    hide Before, Accounted, Evolves, Grows, Renews, Shrinks;
    ghost var m := rm.Value();
    Others(rm, me, limit, alone);
    StopNames(me, rm.Value(), StopWait(v, i, k));
    var waits := patience;
    while rm.instances[i].holder.Some? && waits > 0
      invariant At(rm, me, StopWait(v, i, k)) && i < |rm.instances|
      invariant Evolves(m, rm.Value(), limit)
      invariant alone ==> rm.Value() == m
      decreases waits
    {
      ghost var m1 := rm.Value();
      Others(rm, me, limit, alone);
      StopNames(me, rm.Value(), StopWait(v, i, k));
      EvolvesTrans(m, m1, rm.Value(), limit);
      waits := waits - 1;
    }
    free := rm.instances[i].holder.None?;
  }

  lemma StopNames(me: nat, m: Shared, pc: Pc)
    requires Before(me, m, pc) && (pc.StopWait? || pc.StopHold? || pc.StopClean?)
    ensures pc.i < |m.instances| && m.instances[pc.i].svc == pc.victim
    ensures pc.StopClean? ==> Settled(m.instances[pc.i])
    ensures ContOk(m, pc.k)
  {
    hide SharedOk, Known, HoldsOk, ContOk;
  }

  lemma Locks(me: nat, m: Shared, v: Service, i: nat, k: Cont, limit: nat)
    requires Before(me, m, StopWait(v, i, k)) && Accounted(m.cfg, m.inUse, m.instances)
    requires i < |m.instances| && m.instances[i].holder.None?
    ensures var m' := Acquire(m, i, me);
            && Before(me, m', StopHold(v, i, k)) && Accounted(m'.cfg, m'.inUse, m'.instances)
            && Evolves(m, m', limit) && m'.running == m.running && m'.reserved == m.reserved
  {
    hide Before, After, Accounted, Evolves;
    LockStep(me, m, v, i, k);
    AfterBefore(me, m, Acquire(m, i, me), StopHold(v, i, k));
    SetAccounted(m, i, m.instances[i].(holder := Some(me)));
    SetKeeps(m, i, m.instances[i].(holder := Some(me)), limit);
  }

  lemma Cleans(me: nat, m: Shared, v: Service, i: nat, k: Cont, limit: nat)
    requires Before(me, m, StopClean(v, i, k)) && Accounted(m.cfg, m.inUse, m.instances) && i < |m.instances|
    ensures var m' := CleanUp(m, i);
            && Before(me, m', Unlocking(v, i, ToCont(k))) && Accounted(m'.cfg, m'.inUse, m'.instances)
            && Evolves(m, m', limit) && m'.reserved == m.reserved
            && i < |m'.instances| && m'.instances[i].released
  {
    StopNames(me, m, StopClean(v, i, k));
    BeforeShared(me, m, StopClean(v, i, k));
    InstanceFacts(m, i);
    CleanUpFrame(m, i);
    hide Before, After, Accounted, SharedOk, CleanUp, ContOk, Grows, Shrinks, Evolves;
    StopCleanStep(me, m, v, i, k);
    AfterBefore(me, m, CleanUp(m, i), Unlocking(v, i, ToCont(k)));
    CleanUpAccounted(me, m, i);
    CleanUpShrinks(m, i);
    CleanUpGrows(m, i);
    EvolvesOwn(m, CleanUp(m, i), limit);
  }

  lemma Finishes(me: nat, m: Shared, v: Service, i: nat, k: Cont, limit: nat)
    requires Before(me, m, Unlocking(v, i, ToCont(k))) && Accounted(m.cfg, m.inUse, m.instances)
    ensures i < |m.instances| && (k.AfterEvict? ==> k.b < |m.instances|)
    ensures var m' := Resume(Free(m, i), k);
            && Before(me, m', ResumePc(k)) && Accounted(m'.cfg, m'.inUse, m'.instances)
            && Evolves(m, m', limit) && m'.running == m.running && m'.reserved == m.reserved
  {
    assert i < |m.instances| && (k.AfterEvict? ==> k.b < |m.instances|);
    hide Before, After, Accounted, Resume, Evolves;
    UnlockResumeStep(me, m, v, i, k);
    AfterBefore(me, m, Resume(Free(m, i), k), ResumePc(k));
    SetAccounted(m, i, m.instances[i].(holder := None));
    ResumeAccounted(Free(m, i), k);
    SetKeeps(m, i, m.instances[i].(holder := None), limit);
    ResumeKeeps(Free(m, i), k, limit);
    EvolvesTrans(m, Free(m, i), Resume(Free(m, i), k), limit);
  }

  lemma SetKeeps(m: Shared, i: nat, x: Instance, limit: nat)
    requires i < |m.instances| && Ages(m.instances[i], x)
    ensures Evolves(m, SetInstance(m, i, x), limit)
  {
  }

  lemma ResumeKeeps(m: Shared, k: Cont, limit: nat)
    ensures Evolves(m, Resume(m, k), limit)
    ensures Resume(m, k).running == m.running && Resume(m, k).reserved == m.reserved
  {
    hide Evolves;
    if k.AfterEvict? && k.b < |m.instances| {
      SetKeeps(m, k.b, m.instances[k.b].(since := m.checks), limit);
    } else {
      EvolvesSame(m, m, limit);
    }
  }

  lemma ResumeAccounted(m: Shared, k: Cont)
    requires Accounted(m.cfg, m.inUse, m.instances)
    ensures var m' := Resume(m, k); Accounted(m'.cfg, m'.inUse, m'.instances)
  {
    hide Accounted;
    if k.AfterEvict? && k.b < |m.instances| {
      SetAccounted(m, k.b, m.instances[k.b].(since := m.checks));
    }
  }

  lemma Misses(me: nat, m: Shared, v: Service, k: Cont, limit: nat)
    requires Before(me, m, StopLookup(v, k)) && Accounted(m.cfg, m.inUse, m.instances)
    ensures k.AfterEvict? ==> k.b < |m.instances|
    ensures var m' := Resume(m, k);
            && Before(me, m', ResumePc(k)) && Accounted(m'.cfg, m'.inUse, m'.instances)
            && Evolves(m, m', limit) && m'.running == m.running && m'.reserved == m.reserved
  {
    assert k.AfterEvict? ==> k.b < |m.instances|;
    hide Before, After, Accounted, Resume, Evolves;
    MissStep(me, m, v, k);
    AfterBefore(me, m, Resume(m, k), ResumePc(k));
    ResumeAccounted(m, k);
    ResumeKeeps(m, k, limit);
  }

  lemma Finds(me: nat, m: Shared, v: Service, k: Cont)
    requires Before(me, m, StopLookup(v, k)) && v in m.running
    ensures Before(me, m, StopWait(v, m.running[v], k)) && m.running[v] < |m.instances|
  {
    hide Before, After;
    FindStep(me, m, v, k);
    AfterBefore(me, m, m, StopWait(v, m.running[v], k));
    StopNames(me, m, StopWait(v, m.running[v], k));
  }

  /** An unreleased instance is the registered one of its service. */
  lemma OthersReleased(m: Shared, m': Shared, v: Service)
    requires SharedOk(m) && Grows(m, m')
    requires v in m.running ==> m.running[v] < |m'.instances| && m'.instances[m.running[v]].released
    ensures AllReleased(m, m', v)
  {
    forall b | 0 <= b < |m.instances| && m.instances[b].svc == v
      ensures b < |m'.instances| && m'.instances[b].released
    {
      if !m.instances[b].released {
        assert v in m.running && m.running[v] == b;
      }
    }
  }

  /** So `v` left the registry, or was started anew. */
  lemma ReleasedLeft(m: Shared, m': Shared, v: Service)
    requires SharedOk(m') && Grows(m, m') && AllReleased(m, m', v)
    ensures v in m'.running ==> |m.instances| <= m'.running[v]
  {
    assert forall b :: 0 <= b < |m.instances| ==> m'.instances[b].svc == m.instances[b].svc;
  }

  // ---------------------------------------------------------------- the stop

  /** The end of a stop: give the manageMutex back; for a reservation, note the eviction. */
  method Finish(rm: ResourceManager, me: nat, v: Service, i: nat, k: Cont, ghost limit: nat)
    requires At(rm, me, Unlocking(v, i, ToCont(k)))
    modifies rm
    ensures At(rm, me, ResumePc(k)) && i < |old(rm.instances)| && rm.Value() == Resume(Free(old(rm.Value()), i), k)
    ensures Evolves(old(rm.Value()), rm.Value(), limit)
    ensures rm.resourcesReserved == old(rm.resourcesReserved) && rm.runningServices == old(rm.runningServices)
  {
    hide Before, Accounted, Evolves, Grows, Renews, Shrinks;
    Finishes(me, rm.Value(), v, i, k, limit);
    rm.Unlock(i);
    if k.AfterEvict? {
      rm.ForgetChecks(k.b);
    }
  }

  /** The stop once the manageMutex is held: kill the process and wait for its end, then clean up. A
      failed kill leaves everything as it is. */
  method Kill(rm: ResourceManager, me: nat, v: Service, i: nat, k: Cont, mayFail: bool, ghost limit: nat,
              ghost alone: bool)
    returns (killed: bool)
    requires At(rm, me, StopHold(v, i, k)) && i < |rm.instances|
    modifies rm
    ensures At(rm, me, Unlocking(v, i, ToCont(k))) && (!killed ==> mayFail)
    ensures killed ==> i < |rm.instances| && rm.instances[i].released
    ensures Evolves(old(rm.Value()), rm.Value(), limit)
    ensures alone ==> rm.Value() == if killed then CleanUp(old(rm.Value()), i) else old(rm.Value())
  {
    hide Before, Accounted, Evolves, Grows, Renews, Shrinks, CleanUp;
    ghost var m := rm.Value();
    Others(rm, me, limit, alone);
    assert Before(me, rm.Value(), StopClean(v, i, k)) && Before(me, rm.Value(), Unlocking(v, i, ToCont(k))) by {
      hide Before, After;
      KillStep(me, rm.Value(), v, i, k, StopClean(v, i, k));
      AfterBefore(me, rm.Value(), rm.Value(), StopClean(v, i, k));
      KillStep(me, rm.Value(), v, i, k, Unlocking(v, i, ToCont(k)));
      AfterBefore(me, rm.Value(), rm.Value(), Unlocking(v, i, ToCont(k)));
    }
    StopNames(me, rm.Value(), StopHold(v, i, k));
    var failed: bool := *;
    if failed && mayFail && rm.instances[i].command {
      return false;
    }
    ghost var m1 := rm.Value();
    Others(rm, me, limit, alone);
    StopNames(me, rm.Value(), StopClean(v, i, k));
    ghost var m2 := rm.Value();
    Cleans(me, m2, v, i, k, limit);
    rm.CleanUpStoppedService(i, true);
    EvolvesTrans(m, m1, m2, limit);
    EvolvesTrans(m, m2, rm.Value(), limit);
    killed := true;
  }

  /** stopService, on behalf of `k`. `i` is the instance the look-up found. */
  method StopService(rm: ResourceManager, me: nat, v: Service, k: Cont, patience: nat, mayFail: bool,
                     ghost limit: nat, ghost alone: bool)
    returns (stop: Stop, ghost i: nat)
    requires At(rm, me, StopLookup(v, k))
    modifies rm
    ensures At(rm, me, if stop.Blocked? then StopWait(v, i, k) else ResumePc(k))
    ensures stop.KillFailed? ==> mayFail
    ensures stop.Missing? || stop.CleanedUp? ==> AllReleased(old(rm.Value()), rm.Value(), v)
    ensures (stop.Missing? || stop.CleanedUp?) && v in rm.runningServices ==>
              |old(rm.instances)| <= rm.runningServices[v]
    ensures Evolves(old(rm.Value()), rm.Value(), limit)
    ensures alone ==> rm.resourcesReserved == old(rm.resourcesReserved)
    ensures alone && stop.KillFailed? ==> rm.runningServices == old(rm.runningServices)
    ensures alone && Idle(old(rm.Value()), v) ==>
              && !stop.Blocked?
              && rm.Value() == Resume(if stop.KillFailed? then old(rm.Value()) else Killed(old(rm.Value()), v, me), k)
  {
    hide Before, Accounted, Evolves, Grows, Renews, Shrinks, CleanUp, AllReleased, Resume, SharedOk;
    ghost var m := rm.Value();
    i := 0;
    if v !in rm.runningServices {
      Misses(me, m, v, k, limit);
      Note(rm, k);
      Ended(me, m, rm.Value(), v, ResumePc(k), limit);
      return Missing, i;
    }
    Finds(me, m, v, k);
    var found := rm.runningServices[v];
    i := found;
    var free := AwaitManage(rm, me, v, found, k, patience, limit, alone);
    if !free {
      return Blocked, i;
    }
    ghost var m1 := rm.Value();
    Locks(me, m1, v, found, k, limit);
    rm.Lock(found, me);
    ghost var m2 := rm.Value();
    var killed := Kill(rm, me, v, found, k, mayFail, limit, alone);
    ghost var m3 := rm.Value();
    Finish(rm, me, v, found, k, limit);
    Chained(m, m1, m2, m3, rm.Value(), limit);
    if alone {
      CleanUpReserved(m2, found);
    }
    if !killed {
      if alone && Idle(m, v) {
        LockedAndFreed(m, found, me);
      }
      return KillFailed, i;
    }
    StaysReleased(m3, rm.Value(), found, limit);
    Ended(me, m, rm.Value(), v, ResumePc(k), limit);
    return CleanedUp, i;
  }

  lemma LockedAndFreed(m: Shared, i: nat, me: nat)
    requires i < |m.instances| && m.instances[i].holder.None?
    ensures Free(Acquire(m, i, me), i) == m
  {
    assert m.instances[i := m.instances[i]] == m.instances;
  }

  lemma CleanUpReserved(m: Shared, i: nat)
    requires i < |m.instances|
    ensures CleanUp(m, i).reserved == m.reserved
  {
    hide Fill, Listeners, Minus;
  }

  lemma StaysReleased(m: Shared, m': Shared, i: nat, limit: nat)
    requires Evolves(m, m', limit) && i < |m.instances| && m.instances[i].released
    ensures i < |m'.instances| && m'.instances[i].released
  {
    assert Ages(m.instances[i], m'.instances[i]);
  }

  lemma Ended(me: nat, m: Shared, m': Shared, v: Service, pc: Pc, limit: nat)
    requires (exists pc0 :: Before(me, m, pc0)) && Before(me, m', pc) && Evolves(m, m', limit)
    requires v in m.running ==> m.running[v] < |m'.instances| && m'.instances[m.running[v]].released
    ensures AllReleased(m, m', v) && (v in m'.running ==> |m.instances| <= m'.running[v])
  {
    assert Grows(m, m');
    var pc0 :| Before(me, m, pc0);
    hide Grows, Renews, Evolves, AllReleased, SharedOk;
    BeforeShared(me, m, pc0);
    BeforeShared(me, m', pc);
    OthersReleased(m, m', v);
    ReleasedLeft(m, m', v);
  }

  /** History: the checks before an eviction no longer count. */
  method Note(rm: ResourceManager, k: Cont)
    requires rm.Valid() && (k.AfterEvict? ==> k.b < |rm.instances|)
    modifies rm`instances
    ensures rm.Valid() && rm.Value() == Resume(old(rm.Value()), k)
  {
    if k.AfterEvict? {
      rm.ForgetChecks(k.b);
    }
  }

  lemma Chained(m: Shared, m1: Shared, m2: Shared, m3: Shared, m4: Shared, limit: nat)
    requires Evolves(m, m1, limit) && Evolves(m1, m2, limit) && Evolves(m2, m3, limit) && Evolves(m3, m4, limit)
    ensures Evolves(m, m4, limit)
  {
    hide Evolves;
    EvolvesTrans(m, m1, m2, limit);
    EvolvesTrans(m, m2, m3, limit);
    EvolvesTrans(m, m3, m4, limit);
  }
}
