/** startService as the program has it, with every way out of it. The other goroutines move before each
    of its critical sections. */
module Lifecycle {
  import opened Model
  import opened Machine
  import opened Invariant
  import opened Operations
  import opened Steps
  import opened Ledger
  import opened Manager
  import opened Scheduling
  import opened Stopping
  import opened Reservation

  /** Nothing of the start of `s` as instance `b` is left. */
  ghost predicate Undone(m: Shared, s: Service, b: nat) {
    && b < |m.instances| && m.instances[b].svc == s && m.instances[b].released
    && (s in m.running ==> m.running[s] != b)
  }

  /** Instance `b` of `s` holds its resources and answers requests. */
  ghost predicate Serves(m: Shared, s: Service, b: nat) {
    b < |m.instances| && m.instances[b].svc == s && m.instances[b].ready && m.instances[b].committed
  }

  lemma ReleasedUndone(me: nat, m: Shared, s: Service, b: nat, pc: Pc)
    requires Before(me, m, pc) && b < |m.instances| && m.instances[b].svc == s && m.instances[b].released
    ensures Undone(m, s, b)
  {
    BeforeShared(me, m, pc);
    hide Before;
    if s in m.running {
      Registered(m, s);
      assert !m.instances[m.running[s]].released;
    }
  }

  lemma UndoneStays(me: nat, m: Shared, m': Shared, s: Service, b: nat, pc: Pc)
    requires Undone(m, s, b) && Grows(m, m') && Before(me, m', pc)
    ensures Undone(m', s, b)
  {
    hide Before;
    ReleasedUndone(me, m', s, b, pc);
  }

  // ---------------------------------------------------------------- steps

  /** The other goroutines move before the next critical section. */
  method Meanwhile(rm: ResourceManager, me: nat, pc: Pc, ghost limit: nat, ghost alone: bool)
    requires At(rm, me, pc)
    modifies rm
    ensures At(rm, me, pc) && Grows(old(rm.Value()), rm.Value())
    ensures alone ==> rm.Value() == old(rm.Value())
  {
    hide Before, Accounted, Grows, Renews;
    Others(rm, me, limit, alone);
  }

  lemma UnlockNamed(me: nat, m: Shared, s: Service, b: nat, after: Then)
    requires Before(me, m, Unlocking(s, b, after))
    ensures b < |m.instances| && m.instances[b].svc == s
  {
    hide SharedOk, Known, HoldsOk, ContOk;
  }

  /** Give the manageMutex back. */
  method Release(rm: ResourceManager, me: nat, s: Service, b: nat, after: Then, ghost limit: nat, ghost alone: bool)
    requires At(rm, me, Unlocking(s, b, after)) && !after.ToCont?
    modifies rm
    ensures At(rm, me, UnlockedPc(s, b, after)) && Grows(old(rm.Value()), rm.Value())
    ensures alone ==> b < |old(rm.instances)| && rm.Value() == Free(old(rm.Value()), b)
  {
    hide Before, Accounted, Grows, Shrinks;
    ghost var m0 := rm.Value();
    Meanwhile(rm, me, Unlocking(s, b, after), limit, alone);
    ghost var m := rm.Value();
    UnlockNamed(me, m, s, b, after);
    assert var m' := Free(m, b);
           && Before(me, m', UnlockedPc(s, b, after)) && Accounted(m'.cfg, m'.inUse, m'.instances) && Grows(m, m') by {
      hide Before, After, Accounted, Grows, Shrinks;
      UnlockStep(me, m, s, b, after);
      AfterBefore(me, m, Free(m, b), UnlockedPc(s, b, after));
      SetAccounted(m, b, m.instances[b].(holder := None));
      SetKeeps(m, b, m.instances[b].(holder := None), 0);
    }
    rm.Unlock(b);
    GrowsTrans(m0, m, rm.Value());
  }

  /** After a failed reservation: clean up, unlock. */
  method Refuse(rm: ResourceManager, me: nat, s: Service, b: nat, ghost limit: nat, ghost alone: bool)
    requires At(rm, me, Starting(s, b, Refused))
    modifies rm
    ensures At(rm, me, GivingUp(s)) && Undone(rm.Value(), s, b)
    ensures alone ==> rm.resourcesReserved == old(rm.resourcesReserved)
  {
    hide Before, Accounted, CleanUp, Undone, Grows, Shrinks;
    Meanwhile(rm, me, Starting(s, b, Refused), limit, alone);
    ghost var m := rm.Value();
    OwnFacts(me, m, s, b, Refused);
    assert var m' := CleanUp(m, b);
           && Before(me, m', Unlocking(s, b, ToGiveUp)) && Undone(m', s, b)
           && Accounted(m'.cfg, m'.inUse, m'.instances) && m'.reserved == m.reserved by {
      RefusedFacts(me, m, s, b);
      hide Before, After, Accounted, CleanUp, Undone, Grows, Shrinks, SharedOk;
      RefuseStep(me, m, s, b);
      AfterBefore(me, m, CleanUp(m, b), Unlocking(s, b, ToGiveUp));
      CleanedUp(me, m, s, b, ToGiveUp);
    }
    rm.CleanUpStoppedService(b, true);
    ghost var m' := rm.Value();
    Release(rm, me, s, b, ToGiveUp, limit, alone);
    UndoneStays(me, m', rm.Value(), s, b, GivingUp(s));
  }

  lemma RefusedFacts(me: nat, m: Shared, s: Service, b: nat)
    requires Before(me, m, Starting(s, b, Refused)) && b < |m.instances|
    ensures SharedOk(m) && m.instances[b].svc == s && !m.instances[b].marked && !m.instances[b].committed
  {
    BeforeShared(me, m, Starting(s, b, Refused));
    InstanceFacts(m, b);
    hide SharedOk, Known, HoldsOk, NoEntries;
  }

  /** Clean-up at the end of a start. */
  lemma CleanedUp(me: nat, m: Shared, s: Service, b: nat, after: Then)
    requires SharedOk(m) && Accounted(m.cfg, m.inUse, m.instances) && b < |m.instances|
    requires !m.instances[b].released ==> (m.instances[b].marked <==> m.instances[b].committed)
    requires m.instances[b].svc == s && Before(me, CleanUp(m, b), Unlocking(s, b, after))
    ensures var m' := CleanUp(m, b);
            && Undone(m', s, b) && Accounted(m'.cfg, m'.inUse, m'.instances) && m'.reserved == m.reserved
  {
    hide Before, Accounted, CleanUp, SharedOk, Undone, Shrinks;
    CleanUpAccounted(me, m, b);
    CleanUpShrinks(m, b);
    CleanUpGrows(m, b);
    ReleasedUndone(me, CleanUp(m, b), s, b, Unlocking(s, b, after));
  }

  /** A command that could not be run: return the share, clean up, unlock. */
  method FailSpawn(rm: ResourceManager, me: nat, s: Service, b: nat, ghost limit: nat, ghost alone: bool)
    requires At(rm, me, Starting(s, b, SpawnFailed))
    modifies rm
    ensures At(rm, me, GivingUp(s)) && Undone(rm.Value(), s, b)
    ensures alone ==> rm.resourcesReserved == Minus(old(rm.resourcesReserved), rm.cfg.Requirement(s))
  {
    hide Before, Accounted, CleanUp, Undone, Minus, Grows, Shrinks;
    Meanwhile(rm, me, Starting(s, b, SpawnFailed), limit, alone);
    ghost var m := rm.Value();
    OwnFacts(me, m, s, b, SpawnFailed);
    Fails(me, m, s, b);
    rm.ReturnShare(s);
    rm.CleanUpStoppedService(b, true);
    ghost var m' := rm.Value();
    Release(rm, me, s, b, ToGiveUp, limit, alone);
    UndoneStays(me, m', rm.Value(), s, b, GivingUp(s));
  }

  lemma Fails(me: nat, m: Shared, s: Service, b: nat)
    requires Before(me, m, Starting(s, b, SpawnFailed)) && Accounted(m.cfg, m.inUse, m.instances) && b < |m.instances|
    ensures var m' := CleanUp(GiveBack(m, s), b);
            && Before(me, m', Unlocking(s, b, ToGiveUp)) && Undone(m', s, b)
            && Accounted(m'.cfg, m'.inUse, m'.instances) && m'.reserved == Minus(m.reserved, m.cfg.Requirement(s))
  {
    assert SharedOk(m) && m.instances[b].svc == s && m.instances[b].marked && m.instances[b].committed;
    hide Before, After, Accounted, CleanUp, Undone, Grows, Shrinks, SharedOk, Guar, Minus;
    GiveBackLegal(me, m, s);
    SpawnFailedStep(me, m, s, b);
    AfterBefore(me, m, CleanUp(GiveBack(m, s), b), Unlocking(s, b, ToGiveUp));
    CleanedUp(me, GiveBack(m, s), s, b, ToGiveUp);
  }

  /** A step of the start itself that changes only its instance, in what the sums do not see. */
  lemma StartSets(me: nat, m: Shared, m': Shared, b: nat, x: Instance, pc': Pc)
    requires After(me, m, m', pc') && Accounted(m.cfg, m.inUse, m.instances) && b < |m.instances|
    requires m'.cfg == m.cfg && m'.inUse == m.inUse && m'.instances == m.instances[b := x]
    requires x.svc == m.instances[b].svc && x.committed == m.instances[b].committed
             && x.released == m.instances[b].released
    ensures Before(me, m', pc') && Accounted(m'.cfg, m'.inUse, m'.instances)
  {
    hide Before, After, Accounted;
    AfterBefore(me, m, m', pc');
    SetAccounted(m, b, x);
  }

  method Confirm(rm: ResourceManager, me: nat, s: Service, b: nat, ghost limit: nat, ghost alone: bool)
    requires At(rm, me, Starting(s, b, Reserved))
    modifies rm
    ensures At(rm, me, Starting(s, b, Spawning))
    ensures alone ==> rm.resourcesReserved == old(rm.resourcesReserved)
  {
    hide Before, After, Accounted, Grows, Shrinks;
    Meanwhile(rm, me, Starting(s, b, Reserved), limit, alone);
    ghost var m := rm.Value();
    OwnFacts(me, m, s, b, Reserved);
    ConfirmStep(me, m, s, b);
    StartSets(me, m, Mark(m, b), b, m.instances[b].(waiting := false, marked := true), Starting(s, b, Spawning));
    rm.MarkReserved(b);
  }

  method Record(rm: ResourceManager, me: nat, s: Service, b: nat, ghost limit: nat, ghost alone: bool)
    requires At(rm, me, Starting(s, b, Spawned))
    modifies rm
    ensures At(rm, me, Starting(s, b, Probing)) && s in rm.runningServices && rm.runningServices[s] == b
    ensures alone ==> rm.resourcesReserved == old(rm.resourcesReserved)
  {
    hide Before, After, Accounted, Newcomer, Grows, Shrinks;
    Meanwhile(rm, me, Starting(s, b, Spawned), limit, alone);
    ghost var m := rm.Value();
    OwnFacts(me, m, s, b, Spawned);
    RecordRegistered(me, m, s, b);
    RecordStep(me, m, s, b);
    StartSets(me, m, SetCommand(m, b), b, m.instances[b].(command := true), Starting(s, b, Probing));
    rm.RecordCommand(b);
  }

  lemma RecordRegistered(me: nat, m: Shared, s: Service, b: nat)
    requires Before(me, m, Starting(s, b, Spawned)) && b < |m.instances|
    ensures s in m.running && m.running[s] == b
  {
    hide NoEntries, Known, HoldsOk;
    Unreleased(m, s, b);
  }

  /** The unreleased instance of a service is the registered one. */
  lemma Unreleased(m: Shared, s: Service, b: nat)
    requires SharedOk(m) && b < |m.instances| && m.instances[b].svc == s && !m.instances[b].released
    ensures s in m.running && m.running[s] == b
  {
  }

  /** The end of a successful start: return the share, mark the instance ready, unlock. */
  method Ready(rm: ResourceManager, me: nat, s: Service, b: nat, ghost limit: nat, ghost alone: bool)
    requires At(rm, me, Starting(s, b, MakingReady))
    modifies rm
    ensures At(rm, me, Connected(s)) && Serves(rm.Value(), s, b)
    ensures alone ==>
              && rm.resourcesReserved == Minus(old(rm.resourcesReserved), rm.cfg.Requirement(s))
              && rm.runningServices == old(rm.runningServices)
  {
    hide Before, After, Accounted, Minus, Grows, Shrinks, Serves;
    Meanwhile(rm, me, Starting(s, b, MakingReady), limit, alone);
    ghost var m := rm.Value();
    OwnFacts(me, m, s, b, MakingReady);
    ReadyStep(me, m, s, b);
    ReadyServes(me, m, s, b);
    StartSets(me, m, Model.MakeReady(m, b), b, m.instances[b].(ready := true, timer := true),
              Unlocking(s, b, ToConnected));
    rm.FinishStart(b);
    ghost var m' := rm.Value();
    Release(rm, me, s, b, ToConnected, limit, alone);
    ServesStays(m', rm.Value(), s, b);
  }

  lemma ReadyServes(me: nat, m: Shared, s: Service, b: nat)
    requires Before(me, m, Starting(s, b, MakingReady)) && b < |m.instances| && m.instances[b].svc == s
    ensures Serves(Model.MakeReady(m, b), s, b)
  {
    hide NoEntries, Known, HoldsOk;
    InstanceFacts(m, b);
  }

  lemma ServesStays(m: Shared, m': Shared, s: Service, b: nat)
    requires Serves(m, s, b) && Grows(m, m')
    ensures Serves(m', s, b)
  {
    assert Ages(m.instances[b], m'.instances[b]);
  }

  // ---------------------------------------------------------------- a start that fails after its command ran

  /** Unlock, stop the service by name, return the share. The stop may find this start's instance, find
      another one of the service, find none, or not succeed. */
  method Abort(rm: ResourceManager, me: nat, s: Service, b: nat, patience: nat, mayFail: bool, ghost limit: nat,
               ghost alone: bool)
    returns (stop: Stop, ghost i: nat)
    requires At(rm, me, Unlocking(s, b, ToAbort))
    requires alone && s in rm.runningServices ==> rm.runningServices[s] == b
    modifies rm
    ensures At(rm, me, if stop.Blocked? then StopWait(s, i, AfterAbort(s, b)) else GivingUp(s))
    ensures stop.Missing? || stop.CleanedUp? ==> Undone(rm.Value(), s, b)
    ensures stop.KillFailed? ==> mayFail
    ensures alone ==>
              && !stop.Blocked?
              && rm.resourcesReserved == Minus(old(rm.resourcesReserved), rm.cfg.Requirement(s))
  {
    hide Before, Accounted, Undone, Minus, Grows, Shrinks, AllReleased, Killed;
    ghost var m0 := rm.Value();
    UnlockNamed(me, m0, s, b, ToAbort);
    Release(rm, me, s, b, ToAbort, limit, alone);
    ghost var m1 := rm.Value();
    GrewNamed(m0, m1, s, b);
    Meanwhile(rm, me, StopLookup(s, AfterAbort(s, b)), limit, alone);
    ghost var m2 := rm.Value();
    GrewNamed(m1, m2, s, b);
    stop, i := StopService(rm, me, s, AfterAbort(s, b), patience, mayFail, limit, alone);
    if stop.Blocked? {
      return;
    }
    ghost var m3 := rm.Value();
    Meanwhile(rm, me, Returning(s, b), limit, alone);
    ghost var m4 := rm.Value();
    assert Before(me, GiveBack(m4, s), GivingUp(s))
           && Accounted(GiveBack(m4, s).cfg, GiveBack(m4, s).inUse, GiveBack(m4, s).instances) by {
      hide Before, After, Minus, Accounted;
      ReturnStep(me, m4, s, b);
      AfterBefore(me, m4, GiveBack(m4, s), GivingUp(s));
    }
    rm.ReturnShare(s);
    if !stop.KillFailed? {
      ReleasedByStop(m2, m3, s, b);
      GrewReleased(m3, m4, s, b);
      ReleasedUndone(me, rm.Value(), s, b, GivingUp(s));
    }
  }

  lemma GrewNamed(m: Shared, m': Shared, s: Service, b: nat)
    requires Grows(m, m') && b < |m.instances| && m.instances[b].svc == s
    ensures b < |m'.instances| && m'.instances[b].svc == s
  {
    assert Ages(m.instances[b], m'.instances[b]);
  }

  lemma GrewReleased(m: Shared, m': Shared, s: Service, b: nat)
    requires Grows(m, m') && b < |m.instances| && m.instances[b].svc == s && m.instances[b].released
    ensures b < |m'.instances| && m'.instances[b].svc == s && m'.instances[b].released
  {
    assert Ages(m.instances[b], m'.instances[b]);
  }

  lemma ReleasedByStop(m: Shared, m': Shared, s: Service, b: nat)
    requires AllReleased(m, m', s) && Grows(m, m') && b < |m.instances| && m.instances[b].svc == s
    ensures b < |m'.instances| && m'.instances[b].svc == s && m'.instances[b].released
  {
    GrewNamed(m, m', s, b);
    hide Grows;
  }

  // ---------------------------------------------------------------- the whole start

  lemma Inserts(me: nat, m: Shared, s: Service, now: int)
    requires Before(me, m, Inserting(s)) && s !in m.running && Accounted(m.cfg, m.inUse, m.instances)
    ensures var m' := Insert(m, s, me, now);
            Before(me, m', Starting(s, |m.instances|, Pass(true))) && Accounted(m'.cfg, m'.inUse, m'.instances)
  {
    hide Before, After, Accounted, Unbooked, UseDelta, Insert;
    var m' := Insert(m, s, me, now);
    InsertStep(me, m, s, now);
    AfterBefore(me, m, m', Starting(s, |m.instances|, Pass(true)));
    UnbookedInsert(m, s, me, now);
    UnbookedUse(m, m', -1);
    AccountedDelta(m, m', -1);
  }

  /** The share is what the commit added, so returning it once restores the ledger. */
  lemma ShareReturned(before: map<Resource, int>, share: map<Resource, int>)
    ensures forall r :: Get(Minus(Plus(before, share), share), r) == Get(before, r)
  {
  }

  lemma CommitShare(me: nat, at: Shared, s: Service, b: nat, recheck: bool)
    requires b < |at.instances| && Before(me, at, Starting(s, b, Pass(recheck)))
    ensures Commit(at, b).reserved == Plus(at.reserved, at.cfg.Requirement(s)) && Commit(at, b).cfg == at.cfg
  {
    hide Before;
    OwnFacts(me, at, s, b, Pass(recheck));
  }

  /** How a start ends: refused because the service is registered; with a connection; with nothing left of
      it; with a stop whose kill failed; or not yet, in a stop that still waits for a manageMutex. */
  datatype Outcome = Rejected | Started | Failed | Lingering | Hanging

  /** What the operating system and the service answer: the command runs, the health check ends well, and the service
      takes a connection. */
  datatype Answers = Answers(runs: bool, healthy: bool, connects: bool) {
    predicate Good() { runs && healthy && connects }
  }

  /** Nothing required is measured, and enough is left of everything. */
  ghost predicate Plenty(m: Shared, s: Service) {
    forall r :: r in m.cfg.Requirement(s) ==> r !in m.cfg.check && m.cfg.Need(s, r) <= Left(m, r)
  }

  lemma StillPlenty(m: Shared, s: Service, t: nat, now: int)
    ensures Plenty(Insert(m, s, t, now), s) <==> Plenty(m, s)
  {
    assert forall r :: Left(Insert(m, s, t, now), r) == Left(m, r);
    hide Left, Insert;
    assert Insert(m, s, t, now).cfg == m.cfg by { InsertConfig(m, s, t, now); }
  }

  lemma InsertConfig(m: Shared, s: Service, t: nat, now: int)
    ensures Insert(m, s, t, now).cfg == m.cfg
  {
  }

  /** Where the goroutine is then. */
  ghost predicate Ends(outcome: Outcome, s: Service, b: nat, pc: Pc) {
    match outcome
    case Started => pc == Connected(s)
    case Hanging => pc.StopWait? && (pc.k == AfterEvict(s, b) || pc.k == AfterAbort(s, b))
    case _ => pc == GivingUp(s)
  }

  /** What is then true of instance `b`. */
  ghost predicate Leaves(outcome: Outcome, m: Shared, s: Service, b: nat) {
    && (outcome.Started? ==> Serves(m, s, b))
    && (outcome.Failed? ==> Undone(m, s, b))
  }

  /** startService. Unless a kill fails, a start that fails leaves nothing behind: its instance is released
      and unregistered, the amounts in use are those of the remaining instances, and its share of the
      reserved amounts was returned once. It ends well only with good answers, and alone with plenty it then does. */
  method StartService(rm: ResourceManager, me: nat, s: Service, answers: Answers, patience: nat, failures: nat,
                      now: int, ghost limit: nat, ghost alone: bool)
    returns (outcome: Outcome, ghost pc: Pc)
    requires At(rm, me, Inserting(s))
    modifies rm
    ensures At(rm, me, pc) && Ends(outcome, s, |old(rm.instances)|, pc)
    ensures outcome.Rejected? <==> s in old(rm.runningServices)
    ensures outcome.Rejected? ==> rm.Value() == old(rm.Value())
    ensures Leaves(outcome, rm.Value(), s, |old(rm.instances)|)
    ensures outcome.Lingering? ==> 0 < failures
    ensures outcome.Started? ==> answers.Good()
    ensures alone ==> !outcome.Hanging?
    ensures alone && !outcome.Rejected? && Plenty(old(rm.Value()), s) && answers.Good() ==> outcome.Started?
    ensures alone && outcome.Started? ==> s in rm.runningServices && rm.runningServices[s] == |old(rm.instances)|
    ensures alone ==> forall r :: Get(rm.resourcesReserved, r) == Get(old(rm.resourcesReserved), r)
  {
    hide Before, After, Accounted, Undone, Serves, Minus, Plus, Commit, PassCommits, Sound, At, Grows, Left, Insert;
    ghost var m0 := rm.Value();
    if s in rm.runningServices {
      Rejects(rm, me, s);
      return Rejected, GivingUp(s);
    }
    var b := Register(rm, me, s, now);
    ghost var m := rm.Value();
    StillPlenty(m0, s, me, now);
    ShareReturned(m.reserved, m.cfg.Requirement(s));
    var answer;
    ghost var log, at, trusted, why;
    answer, log, at, trusted, pc, why := ReserveResources(rm, me, s, b, patience, failures, now, limit, alone);
    match answer {
      case Hanging =>
        outcome := Outcome.Hanging;
      case Denied =>
        SoundReserved(m, rm.Value(), s, alone, log);
        Refuse(rm, me, s, b, limit, alone);
        outcome, pc := Failed, GivingUp(s);
      case Granted =>
        SoundReserved(m, at, s, alone, log);
        CommitShare(me, at, s, b, !trusted);
        assert alone ==> rm.resourcesReserved == Plus(m.reserved, m.cfg.Requirement(s));
        outcome, pc := Run(rm, me, s, b, answers, patience, 0 < failures, limit, alone);
    }
  }

  lemma SoundReserved(m: Shared, m': Shared, s: Service, alone: bool, log: Log)
    requires Sound(m, m', s, alone, log)
    ensures alone ==> m'.reserved == m.reserved
  {
    hide AllJustified, Evicted, Gone;
  }

  lemma Rejects(rm: ResourceManager, me: nat, s: Service)
    requires At(rm, me, Inserting(s))
    ensures At(rm, me, GivingUp(s))
  {
    assert Before(me, rm.Value(), GivingUp(s));
    hide Before, Accounted;
  }

  /** Create the instance with its manageMutex taken, and register it. */
  method Register(rm: ResourceManager, me: nat, s: Service, now: int) returns (b: nat)
    requires At(rm, me, Inserting(s)) && s !in rm.runningServices
    modifies rm
    ensures At(rm, me, Starting(s, b, Pass(true))) && b == |old(rm.instances)|
    ensures rm.resourcesReserved == old(rm.resourcesReserved) && rm.Value() == Insert(old(rm.Value()), s, me, now)
  {
    hide Before, Accounted;
    Inserts(me, rm.Value(), s, now);
    b := rm.InsertInstance(s, me, now);
  }

  /** From the reservation to the connection. */
  method Run(rm: ResourceManager, me: nat, s: Service, b: nat, answers: Answers, patience: nat, mayFail: bool,
             ghost limit: nat, ghost alone: bool)
    returns (outcome: Outcome, ghost pc: Pc)
    requires At(rm, me, Starting(s, b, Reserved))
    modifies rm
    ensures At(rm, me, pc) && Ends(outcome, s, b, pc) && !outcome.Rejected? && Leaves(outcome, rm.Value(), s, b)
    ensures (outcome.Lingering? ==> mayFail) && (outcome.Started? <==> answers.Good())
    ensures alone && outcome.Started? ==> s in rm.runningServices && rm.runningServices[s] == b
    ensures alone ==>
              && !outcome.Hanging?
              && rm.resourcesReserved == Minus(old(rm.resourcesReserved), rm.cfg.Requirement(s))
  {
    hide Before, Accounted, Undone, Serves, Minus, Grows, At;
    Confirm(rm, me, s, b, limit, alone);
    Turns(rm, me, s, b, Spawning, Starting(s, b, if answers.runs then Spawned else SpawnFailed));
    if !answers.runs {
      FailSpawn(rm, me, s, b, limit, alone);
      return Failed, GivingUp(s);
    }
    Record(rm, me, s, b, limit, alone);
    outcome, pc := Connect(rm, me, s, b, answers, patience, mayFail, limit, alone);
  }

  /** The health check, then the first connection. */
  method Probe(rm: ResourceManager, me: nat, s: Service, b: nat, answers: Answers, ghost limit: nat, ghost alone: bool)
    returns (connected: bool)
    requires At(rm, me, Starting(s, b, Probing))
    modifies rm
    ensures connected == (answers.healthy && answers.connects)
    ensures At(rm, me, if connected then Starting(s, b, MakingReady) else Unlocking(s, b, ToAbort))
    ensures alone ==> rm.Value() == old(rm.Value())
  {
    hide Before, Accounted, Grows, At;
    Meanwhile(rm, me, Starting(s, b, Probing), limit, alone);
    connected := answers.healthy;
    Turns(rm, me, s, b, Probing, if connected then Starting(s, b, Connecting) else Unlocking(s, b, ToAbort));
    if connected {
      Meanwhile(rm, me, Starting(s, b, Connecting), limit, alone);
      connected := answers.connects;
      Turns(rm, me, s, b, Connecting, if connected then Starting(s, b, MakingReady) else Unlocking(s, b, ToAbort));
    }
  }

  /** The health check and the first connection; whichever fails, the start is aborted. */
  method Connect(rm: ResourceManager, me: nat, s: Service, b: nat, answers: Answers, patience: nat, mayFail: bool,
                 ghost limit: nat, ghost alone: bool)
    returns (outcome: Outcome, ghost pc: Pc)
    requires At(rm, me, Starting(s, b, Probing)) && s in rm.runningServices && rm.runningServices[s] == b
    modifies rm
    ensures At(rm, me, pc) && Ends(outcome, s, b, pc) && !outcome.Rejected? && Leaves(outcome, rm.Value(), s, b)
    ensures (outcome.Lingering? ==> mayFail) && (outcome.Started? <==> answers.healthy && answers.connects)
    ensures alone && outcome.Started? ==> s in rm.runningServices && rm.runningServices[s] == b
    ensures alone ==>
              && !outcome.Hanging?
              && rm.resourcesReserved == Minus(old(rm.resourcesReserved), rm.cfg.Requirement(s))
  {
    hide Before, Accounted, Undone, Serves, Minus, Grows, At;
    var connected := Probe(rm, me, s, b, answers, limit, alone);
    if connected {
      Ready(rm, me, s, b, limit, alone);
      return Started, Connected(s);
    }
    var stop;
    ghost var i;
    stop, i := Abort(rm, me, s, b, patience, mayFail, limit, alone);
    outcome := match stop case Blocked => Outcome.Hanging case KillFailed => Lingering case _ => Failed;
    pc := if stop.Blocked? then StopWait(s, i, AfterAbort(s, b)) else GivingUp(s);
  }

  lemma Turns(rm: ResourceManager, me: nat, s: Service, b: nat, phase: Phase, pc': Pc)
    requires At(rm, me, Starting(s, b, phase))
    requires match phase
             case Spawning => pc' == Starting(s, b, Spawned) || pc' == Starting(s, b, SpawnFailed)
             case Probing => pc' == Starting(s, b, Connecting) || pc' == Unlocking(s, b, ToAbort)
             case Connecting => pc' == Starting(s, b, MakingReady) || pc' == Unlocking(s, b, ToAbort)
             case _ => false
    ensures At(rm, me, pc')
  {
    hide Before, Accounted;
    assert Before(me, rm.Value(), pc') by {
      hide Before, After;
      ProbeStep(me, rm.Value(), s, b, phase, pc');
      AfterBefore(me, rm.Value(), rm.Value(), pc');
    }
  }
}
