/** Every step of a goroutine is legal and establishes the facts of its next program counter. */
module Steps {
  import opened Model
  import opened Machine
  import opened Invariant
  import opened Operations

  /** `t` is recorded as holder only where its program counter says so. */
  ghost predicate Known(m: Shared, t: nat, pc: Pc) {
    forall i :: 0 <= i < |m.instances| && m.instances[i].holder == Some(t) ==> i in Holds(pc)
  }

  ghost predicate Before(t: nat, m: Shared, pc: Pc) {
    SharedOk(m) && ThreadOk(m, t, pc) && Known(m, t, pc)
  }

  ghost predicate After(t: nat, m: Shared, m': Shared, pc': Pc) {
    Legal(t, m, m') && ThreadOk(m', t, pc') && Known(m', t, pc')
  }

  ghost predicate Newcomer(m: Shared, pc: Pc) {
    PcOk(m, pc) && Holds(pc) == {} && WaitsOn(pc).None?
  }

  // ---------------------------------------------------------------- single facts of SharedOk

  lemma InstanceFacts(m: Shared, i: nat)
    requires SharedOk(m) && i < |m.instances|
    ensures InstanceOk(m, m.instances[i])
  {
  }

  lemma Registered(m: Shared, s: Service)
    requires SharedOk(m) && s in m.running
    ensures Birth(m, m.running[s], s)
  {
  }

  lemma FirstEntry(m: Shared, r: Resource, s: Service)
    requires SharedOk(m) && Entry(m.first, r, s).Some?
    ensures Entry(m.first, r, s).value < |m.channels|
    ensures m.channels[Entry(m.first, r, s).value].key == FirstKey(r, s)
  {
  }

  lemma ChangeEntry(m: Shared, r: Resource, s: Service)
    requires SharedOk(m) && Entry(m.change, r, s).Some?
    ensures Entry(m.change, r, s).value < |m.channels|
    ensures m.channels[Entry(m.change, r, s).value].key == ChangeKey(r, s)
  {
  }

  // ---------------------------------------------------------------- connection goroutines

  /** A step of a goroutine that holds nothing, and will not. */
  lemma Goer(t: nat, m: Shared, pc: Pc, m': Shared, pc': Pc)
    requires Before(t, m, pc) && Legal(t, m, m') && |m'.instances| == |m.instances| && m'.cfg == m.cfg
    requires forall i :: 0 <= i < |m.instances| ==> m'.instances[i].holder == m.instances[i].holder
    requires Holds(pc) == Holds(pc') == {} && PcOk(m', pc')
    requires WaitsOn(pc').Some? ==> WaitsOn(pc').value in m.cfg.requirements
    ensures After(t, m, m', pc')
  {
    hide SharedOk, Guar, PcOk, Holds, WaitsOn;
  }

  lemma CountFacts(t: nat, m: Shared, pc: Pc, s: Service, p: int, w: int, next: Onward)
    requires Before(t, m, pc) && (WaitsOn(pc) == Some(s) || pc == Arriving(s))
    ensures var m', pc' := Count(m, s, p, w), AfterCount(Count(m, s, p, w), s, next);
            && m'.instances == m.instances && m'.cfg == m.cfg
            && Holds(pc') == {} && PcOk(m', pc') && (WaitsOn(pc').Some? ==> WaitsOn(pc').value in m.cfg.requirements)
  {
    hide SharedOk, StatsOf, Clamp, Known, HoldsOk;
  }

  lemma NotifyStep(t: nat, m: Shared, s: Service, next: Onward)
    requires Before(t, m, Notifying(s, next))
    ensures After(t, m, Broadcast(m, m.cfg.Requirement(s).Keys, true), OnwardPc(s, next))
  {
    hide SharedOk, Guar;
    BroadcastLegal(t, m, m.cfg.Requirement(s).Keys, true);
  }

  lemma AcquireHolds(t: nat, m: Shared, pc: Pc, i: nat, pc': Pc)
    requires HoldsOk(m, t, pc) && Known(m, t, pc) && i < |m.instances| && Holds(pc') == Holds(pc) + {i}
    ensures HoldsOk(Acquire(m, i, t), t, pc') && Known(Acquire(m, i, t), t, pc')
  {
    hide Holds;
  }

  lemma AcquireStep(t: nat, m: Shared, pc: Pc, i: nat, pc': Pc)
    requires Before(t, m, pc) && i < |m.instances| && m.instances[i].holder.None?
    requires Holds(pc') == Holds(pc) + {i} && WaitsOn(pc') == WaitsOn(pc)
    requires PcOk(Acquire(m, i, t), pc')
    ensures After(t, m, Acquire(m, i, t), pc')
  {
    AcquireLegal(t, m, i);
    AcquireHolds(t, m, pc, i, pc');
    hide SharedOk, Guar, Legal, PcOk, Holds, WaitsOn, HoldsOk, Known;
  }

  lemma TryStep(t: nat, m: Shared, s: Service, i: nat)
    requires Before(t, m, Trying(s, i)) && i < |m.instances| && m.instances[i].holder.None?
    ensures After(t, m, Acquire(m, i, t), Tracking(s, i))
  {
    hide SharedOk, Guar;
    InstanceFacts(m, i);
    AcquireStep(t, m, Trying(s, i), i, Tracking(s, i));
  }

  lemma QueueStep(t: nat, m: Shared, s: Service, i: nat)
    requires Before(t, m, Queued(s, i)) && i < |m.instances| && m.instances[i].holder.None?
    ensures After(t, m, Acquire(m, i, t), Dequeued(s, i))
  {
    hide SharedOk, Guar;
    InstanceFacts(m, i);
    AcquireStep(t, m, Queued(s, i), i, Dequeued(s, i));
  }

  lemma TrackStep(t: nat, m: Shared, pc: Pc, s: Service, j: nat, now: int, pc': Pc)
    requires Before(t, m, pc)
    requires match pc
             case Tracking(q, i) => q == s && pc' == Unlocking(s, i, ToDial)
             case Connected(q) => q == s && pc' == Entering(s)
             case Proxying(q) => q == s && pc' == Departing(s)
             case _ => false
    ensures After(t, m, TouchIf(m, s, j, now), pc')
  {
    hide SharedOk, Guar;
    TouchLegal(t, m, s, j, now);
  }

  lemma InsertStep(t: nat, m: Shared, s: Service, now: int)
    requires Before(t, m, Inserting(s)) && s !in m.running
    ensures After(t, m, Insert(m, s, t, now), Starting(s, |m.instances|, Pass(true)))
  {
    hide SharedOk, Guar;
    InsertLegal(t, m, s, now);
  }

  lemma LocalStep(t: nat, m: Shared, pc: Pc, pc': Pc)
    requires Before(t, m, pc) && Holds(pc') == Holds(pc) && PcOk(m, pc')
    requires WaitsOn(pc').Some? ==> WaitsOn(pc').value in m.cfg.requirements
    ensures After(t, m, m, pc')
  {
    hide SharedOk, Guar, PcOk, Holds, WaitsOn;
    SameLegal(t, m);
  }

  /** A step that leaves every holder alone. */
  lemma HoldersStep(t: nat, m: Shared, pc: Pc, m': Shared, pc': Pc)
    requires Before(t, m, pc) && Legal(t, m, m') && |m'.instances| == |m.instances| && m'.cfg == m.cfg
    requires forall i :: 0 <= i < |m.instances| ==> m'.instances[i].holder == m.instances[i].holder
    requires Holds(pc') == Holds(pc) && WaitsOn(pc') == WaitsOn(pc) && PcOk(m', pc')
    ensures After(t, m, m', pc')
  {
    hide SharedOk, Guar, PcOk, Holds, WaitsOn;
  }

  /** The goroutine at `pc` is recorded as the holder of what it holds. */
  lemma Holder(t: nat, m: Shared, s: Service, b: nat, phase: Phase)
    requires Before(t, m, Starting(s, b, phase))
    ensures b < |m.instances| && m.instances[b].svc == s && m.instances[b].holder == Some(t) && PhaseOk(m, s, b, phase)
    ensures SharedOk(m)
  {
    hide SharedOk, Known, PhaseOk;
    assert b in Holds(Starting(s, b, phase));
  }

  /** Steps of a client connection that change nothing shared. */
  predicate IsLocal(a: Action, m: Shared, pc: Pc) {
    pc.LookingUp? || (pc.Trying? && !a.TryOk?) || (pc.Queued? && !a.QueueLock?) || pc.Dequeued? || pc.Dialing?
    || pc.Restarting? || (pc.Inserting? && pc.svc in m.running)
  }

  ghost predicate GoesTo(m: Shared, pc: Pc, pc': Pc) {
    Holds(pc') == Holds(pc) && PcOk(m, pc') && WaitsOn(pc') == WaitsOn(pc)
  }

  lemma MutexGoes(t: nat, a: Action, m: Shared, pc: Pc, m': Shared, pc': Pc, spawn: seq<Pc>)
    requires PcOk(m, pc) && ClientStep(t, a, m, pc, m', pc', spawn) && IsLocal(a, m, pc)
    requires pc.Trying? || pc.Queued? || pc.Dequeued?
    ensures m' == m && GoesTo(m, pc, pc')
  {
  }

  lemma ConnectGoes(t: nat, a: Action, m: Shared, pc: Pc, m': Shared, pc': Pc, spawn: seq<Pc>)
    requires SharedOk(m) && PcOk(m, pc) && ClientStep(t, a, m, pc, m', pc', spawn) && IsLocal(a, m, pc)
    requires pc.Dialing? || pc.Restarting? || pc.Inserting?
    ensures m' == m && GoesTo(m, pc, pc')
  {
    hide SharedOk;
  }

  lemma BeforeFacts(t: nat, m: Shared, pc: Pc)
    requires Before(t, m, pc)
    ensures SharedOk(m) && PcOk(m, pc)
  {
  }

  lemma Goes(t: nat, m: Shared, pc: Pc, pc': Pc)
    requires Before(t, m, pc) && GoesTo(m, pc, pc')
    ensures After(t, m, m, pc')
  {
    assert WaitsOn(pc).Some? ==> WaitsOn(pc).value in m.cfg.requirements;
    hide Before, After, PcOk, Holds, WaitsOn;
    LocalStep(t, m, pc, pc');
  }

  lemma ClientLocals(t: nat, a: Action, m: Shared, pc: Pc, m': Shared, pc': Pc, spawn: seq<Pc>)
    requires Before(t, m, pc) && ClientStep(t, a, m, pc, m', pc', spawn) && IsLocal(a, m, pc)
    ensures After(t, m, m', pc')
  {
    BeforeFacts(t, m, pc);
    hide Before, After, SharedOk, PcOk, ClientStep, GoesTo;
    if pc.LookingUp? {
    } else if pc.Trying? || pc.Queued? || pc.Dequeued? {
      MutexGoes(t, a, m, pc, m', pc', spawn);
    } else {
      ConnectGoes(t, a, m, pc, m', pc', spawn);
    }
    Goes(t, m, pc, pc');
  }

  /** Steps of a client connection that count it. */
  lemma CountSteps(t: nat, a: Action, m: Shared, pc: Pc, m': Shared, pc': Pc, spawn: seq<Pc>)
    requires Before(t, m, pc) && ClientStep(t, a, m, pc, m', pc', spawn)
    requires pc.Arriving? || pc.Entering? || pc.Departing? || pc.GivingUp? || pc.Notifying?
    ensures After(t, m, m', pc')
  {
    hide Before, After, Count, Broadcast, AfterCount, OnwardPc;
    if pc.Arriving? {
      PlainCountStep(t, m, pc, pc.svc, 0, 1, OnLookup);
    } else if pc.Entering? {
      PlainCountStep(t, m, pc, pc.svc, 1, -1, OnProxy);
    } else if pc.GivingUp? {
      PlainCountStep(t, m, pc, pc.svc, 0, -1, OnDone);
    } else if pc.Departing? {
      DepartStep(t, m, pc.svc);
    } else {
      NotifyStep(t, m, pc.svc, pc.next);
    }
  }

  lemma PlainCountStep(t: nat, m: Shared, pc: Pc, s: Service, p: int, w: int, next: Onward)
    requires Before(t, m, pc) && (pc == Arriving(s) || pc == Entering(s) || pc == GivingUp(s))
    ensures After(t, m, Count(m, s, p, w), AfterCount(Count(m, s, p, w), s, next))
  {
    assert Holds(pc) == {} && (WaitsOn(pc) == Some(s) || pc == Arriving(s));
    hide *;
    assert After(t, m, Count(m, s, p, w), AfterCount(Count(m, s, p, w), s, next)) by {
      BeforeFacts(t, m, pc);
      CountFacts(t, m, pc, s, p, w, next);
      hide SharedOk, Guar, Before, After, Legal, Count, AfterCount, StatsOf;
      CountLegal(t, m, s, p, w);
      Goer(t, m, pc, Count(m, s, p, w), AfterCount(Count(m, s, p, w), s, next));
    }
  }

  /** The other steps of a client connection that change something shared. */
  lemma SharedSteps(t: nat, a: Action, m: Shared, pc: Pc, m': Shared, pc': Pc, spawn: seq<Pc>)
    requires Before(t, m, pc) && ClientStep(t, a, m, pc, m', pc', spawn)
    requires pc.Trying? || pc.Queued? || pc.Tracking? || pc.Inserting? || pc.Connected? || pc.Proxying?
    requires !IsLocal(a, m, pc)
    ensures After(t, m, m', pc')
  {
    hide Before, After, TouchIf, Acquire, Insert;
    if pc.Trying? {
      TryStep(t, m, pc.svc, pc.i);
    } else if pc.Queued? {
      QueueStep(t, m, pc.svc, pc.i);
    } else if pc.Inserting? {
      InsertStep(t, m, pc.svc, a.now);
    } else {
      TrackStep(t, m, pc, pc.svc, a.j, a.now, pc');
    }
  }

  lemma ClientSteps(t: nat, a: Action, m: Shared, pc: Pc, m': Shared, pc': Pc, spawn: seq<Pc>)
    requires Before(t, m, pc) && ClientStep(t, a, m, pc, m', pc', spawn)
    ensures After(t, m, m', pc')
  {
    assert IsLocal(a, m, pc) || pc.Arriving? || pc.Entering? || pc.Departing? || pc.GivingUp? || pc.Notifying?
           || pc.Trying? || pc.Queued? || pc.Tracking? || pc.Inserting? || pc.Connected? || pc.Proxying? by {
      hide Before, After, TouchIf, Acquire, Insert, Count, Broadcast;
    }
    hide *;
    if IsLocal(a, m, pc) {
      ClientLocals(t, a, m, pc, m', pc', spawn);
    } else if pc.Arriving? || pc.Entering? || pc.Departing? || pc.GivingUp? || pc.Notifying? {
      CountSteps(t, a, m, pc, m', pc', spawn);
    } else {
      SharedSteps(t, a, m, pc, m', pc', spawn);
    }
  }

  lemma DepartStep(t: nat, m: Shared, s: Service)
    requires Before(t, m, Departing(s))
    ensures After(t, m, Count(m, s, -1, 0), AfterCount(Count(m, s, -1, 0), s, OnDone))
  {
    assert var m', pc' := Count(m, s, -1, 0), AfterCount(Count(m, s, -1, 0), s, OnDone);
           && SharedOk(m) && m'.instances == m.instances && m'.cfg == m.cfg
           && Holds(pc') == {} && PcOk(m', pc') && WaitsOn(pc').None?;
    hide SharedOk, Guar, Before, After, Legal, Count, AfterCount, StatsOf;
    CountLegal(t, m, s, -1, 0);
    Goer(t, m, Departing(s), Count(m, s, -1, 0), AfterCount(Count(m, s, -1, 0), s, OnDone));
  }

  // ---------------------------------------------------------------- the reservation loop

  /** A step of a start to another of its phases. */
  lemma PhaseStep(t: nat, m: Shared, s: Service, b: nat, phase: Phase, m': Shared, phase': Phase)
    requires Before(t, m, Starting(s, b, phase)) && Legal(t, m, m') && m'.instances == m.instances && m'.cfg == m.cfg
    requires b < |m.instances| && m.instances[b].svc == s && PhaseOk(m', s, b, phase')
    ensures After(t, m, m', Starting(s, b, phase'))
  {
    hide SharedOk, Guar, Legal, Before, After, PhaseOk, Known, HoldsOk;
    SameHolders(t, m, Starting(s, b, phase), m', Starting(s, b, phase'));
  }

  /** The reservation loop of `b` owns the registrations of its service. */
  lemma LoopOwns(t: nat, m: Shared, s: Service, b: nat, phase: Phase)
    requires Before(t, m, Starting(s, b, phase)) && b < |m.instances| && InReserve(m.instances[b])
    ensures Owns(m, t, s)
  {
    assert b in Holds(Starting(s, b, phase));
  }

  lemma CommitPhase(m: Shared, s: Service, b: nat, recheck: bool)
    requires b < |m.instances| && m.instances[b].svc == s && PhaseOk(m, s, b, Pass(recheck)) && SharedOk(m)
    ensures InReserve(m.instances[b]) && NoEntries(m, s)
    ensures b < |Commit(m, b).instances| && PhaseOk(Commit(m, b), s, b, Reserved)
  {
    InstanceFacts(m, b);
    UnregisterEntry(m.change, m.cfg.Requirement(s).Keys, s);
    hide SharedOk, Unregister, Plus, AllFresh;
  }

  lemma CommitHolders(m: Shared, b: nat)
    requires b < |m.instances|
    ensures |Commit(m, b).instances| == |m.instances| && Commit(m, b).cfg == m.cfg
    ensures forall i :: 0 <= i < |m.instances| ==>
              && Commit(m, b).instances[i].holder == m.instances[i].holder
              && Commit(m, b).instances[i].svc == m.instances[i].svc
  {
    hide Plus, Unregister;
  }

  lemma CommitStep(t: nat, m: Shared, s: Service, b: nat, recheck: bool)
    requires Before(t, m, Starting(s, b, Pass(recheck)))
    ensures After(t, m, Commit(m, b), Starting(s, b, Reserved))
  {
    Holder(t, m, s, b, Pass(recheck));
    CommitPhase(m, s, b, recheck);
    CommitHolders(m, b);
    hide SharedOk, Guar, Before, After, Legal, Known, PhaseOk, Commit, NoEntries;
    CommitLegal(t, m, b);
    HoldersStep(t, m, Starting(s, b, Pass(recheck)), Commit(m, b), Starting(s, b, Reserved));
  }

  lemma AskedPhase(m: Shared, s: Service, b: nat, chans: map<Resource, nat>, m': Shared)
    requires b < |m.instances| && InReserve(m.instances[b]) && NoEntries(m, s)
    requires FreshChannels(m, s, chans) && Asked(m, s, chans, m')
    ensures b < |m'.instances| && PhaseOk(m', s, b, Pending(chans, chans.Keys))
    ensures m'.instances == m.instances && m'.cfg == m.cfg
  {
    forall r | r in chans ensures chans[r] < |m'.channels| && m'.channels[chans[r]].value.None? {}
    forall r ensures Entry(m'.first, r, s) == if r in chans then Some(chans[r]) else None {
      assert Entry(m.first, r, s).None?;
    }
    assert forall r :: Entry(m'.change, r, s) == Entry(m.change, r, s);
  }

  lemma AskStep(t: nat, m: Shared, s: Service, b: nat, recheck: bool, chans: map<Resource, nat>, m': Shared)
    requires Before(t, m, Starting(s, b, Pass(recheck)))
    requires FreshChannels(m, s, chans) && Asked(m, s, chans, m')
    ensures After(t, m, m', Starting(s, b, Pending(chans, chans.Keys)))
  {
    hide SharedOk, Guar, Owns, FreshChannels, Asked, Holds, WaitsOn;
    LoopOwns(t, m, s, b, Pass(recheck));
    AskedLegal(t, m, s, chans, m');
    AskedPhase(m, s, b, chans, m');
    AskedPcs(s, b, recheck, chans);
    SameHolders(t, m, Starting(s, b, Pass(recheck)), m', Starting(s, b, Pending(chans, chans.Keys)));
  }

  lemma AskedPcs(s: Service, b: nat, recheck: bool, chans: map<Resource, nat>)
    ensures Holds(Starting(s, b, Pending(chans, chans.Keys))) == Holds(Starting(s, b, Pass(recheck)))
    ensures WaitsOn(Starting(s, b, Pending(chans, chans.Keys))) == WaitsOn(Starting(s, b, Pass(recheck)))
  {
  }

  lemma SameHolders(t: nat, m: Shared, pc: Pc, m': Shared, pc': Pc)
    requires Before(t, m, pc) && Legal(t, m, m') && m'.instances == m.instances && m'.cfg == m.cfg
    requires Holds(pc') == Holds(pc) && WaitsOn(pc') == WaitsOn(pc) && PcOk(m', pc')
    ensures After(t, m, m', pc')
  {
    hide SharedOk, Guar, PcOk, Holds, WaitsOn;
  }

  lemma LackStep(t: nat, m: Shared, s: Service, b: nat, recheck: bool, r: Resource)
    requires Before(t, m, Starting(s, b, Pass(recheck))) && PassLacks(m, s, recheck, r)
    ensures After(t, m, m.(first := Unregister(m.first, m.first.Keys, s)), Starting(s, b, Lacking(r)))
  {
    Holder(t, m, s, b, Pass(recheck));
    LoopOwns(t, m, s, b, Pass(recheck));
    assert PhaseOk(m.(first := Unregister(m.first, m.first.Keys, s)), s, b, Lacking(r));
    hide SharedOk, Guar, Before, After, Legal, PhaseOk, Owns, Unregister;
    DropFirstLegal(t, m, m.first.Keys, s);
    PhaseStep(t, m, s, b, Pass(recheck), m.(first := Unregister(m.first, m.first.Keys, s)), Lacking(r));
  }

  lemma ReceiveStep(t: nat, m: Shared, s: Service, b: nat, chans: map<Resource, nat>, todo: set<Resource>, r: Resource)
    requires Before(t, m, Starting(s, b, Pending(chans, todo)))
    requires r in todo && r in chans && chans[r] < |m.channels| && m.channels[chans[r]].value.Some?
    ensures After(t, m, Take(m, chans[r]), Starting(s, b, Pending(chans, todo - {r})))
  {
    Holder(t, m, s, b, Pending(chans, todo));
    LoopOwns(t, m, s, b, Pending(chans, todo));
    assert Entry(m.first, r, s) == Some(chans[r]);
    FirstEntry(m, r, s);
    TakenPhase(m, s, b, chans, todo, r);
    hide SharedOk, Guar, Before, After, Legal, Known, PhaseOk, Owns;
    TakeLegal(t, m, chans[r]);
    PhaseStep(t, m, s, b, Pending(chans, todo), Take(m, chans[r]), Pending(chans, todo - {r}));
  }

  lemma TakenPhase(m: Shared, s: Service, b: nat, chans: map<Resource, nat>, todo: set<Resource>, r: Resource)
    requires b < |m.instances| && PhaseOk(m, s, b, Pending(chans, todo))
    requires r in todo && r in chans && chans[r] < |m.channels| && m.channels[chans[r]].value.Some?
    ensures PhaseOk(Take(m, chans[r]), s, b, Pending(chans, todo - {r}))
  {
    var m' := Take(m, chans[r]);
    assert forall q :: Entry(m'.first, q, s) == Entry(m.first, q, s) && Entry(m'.change, q, s) == Entry(m.change, q, s);
    assert Fresh(m, b, r);
    hide Entry;
    forall q | q in chans
      ensures chans[q] < |m'.channels| && (q !in todo - {r} || m'.channels[chans[q]].value.Some? ==> Fresh(m', b, q))
    {
      assert Fresh(m, b, q) ==> Fresh(m', b, q);
    }
  }

  lemma DropStep(t: nat, m: Shared, s: Service, b: nat, chans: map<Resource, nat>, ok: bool)
    requires Before(t, m, Starting(s, b, PendingDone(chans, ok)))
    ensures After(t, m, m.(first := Unregister(m.first, chans.Keys, s)),
                  Starting(s, b, if ok then Pass(false) else Refused))
  {
    hide SharedOk, Guar;
    LoopOwns(t, m, s, b, PendingDone(chans, ok));
    DropFirstLegal(t, m, chans.Keys, s);
    UnregisterEntry(m.first, chans.Keys, s);
  }

  lemma PickGoes(m: Shared, s: Service, b: nat, r: Resource, v: Service)
    requires b < |m.instances| && m.instances[b].svc == s && PhaseOk(m, s, b, Lacking(r))
    requires forall i: nat :: Birth(m, i, v) ==> Later(m, i, AfterEvict(s, b))
    ensures GoesTo(m, Starting(s, b, Lacking(r)), StopLookup(v, AfterEvict(s, b)))
  {
    hide NoEntries, AllFresh, Later, Birth;
  }

  /** At the selection no instance of the victim is still being reserved for; any that is later
      was born after `b`. */
  lemma PickStep(t: nat, m: Shared, s: Service, b: nat, r: Resource, v: Service, now: int)
    requires Before(t, m, Starting(s, b, Lacking(r))) && Eligible(m, s, r, now, v)
    ensures After(t, m, m, StopLookup(v, AfterEvict(s, b)))
  {
    var k := AfterEvict(s, b);
    Holder(t, m, s, b, Lacking(r));
    PickGoes(m, s, b, r, v);
    hide SharedOk, Before, After, GoesTo, PhaseOk;
    Goes(t, m, Starting(s, b, Lacking(r)), StopLookup(v, k));
  }

  lemma EnlistPhase(m: Shared, s: Service, b: nat, r: Resource)
    requires b < |m.instances| && PhaseOk(m, s, b, Parking(r))
    ensures NoChange(m, s) && PhaseOk(Enlist(m, r, s), s, b, Waiting(r, |m.channels|))
  {
    RegisterEntry(m.change, r, s, |m.channels|);
    hide Register;
    var m' := Enlist(m, r, s);
    assert forall q :: Entry(m'.first, q, s) == Entry(m.first, q, s);
  }

  lemma EnlistStep(t: nat, m: Shared, s: Service, b: nat, r: Resource)
    requires Before(t, m, Starting(s, b, Parking(r)))
    ensures After(t, m, Enlist(m, r, s), Starting(s, b, Waiting(r, |m.channels|)))
  {
    Holder(t, m, s, b, Parking(r));
    LoopOwns(t, m, s, b, Parking(r));
    EnlistPhase(m, s, b, r);
    hide SharedOk, Guar, Before, After, Legal, Known, PhaseOk, Owns, NoEntries, NoChange;
    EnlistLegal(t, m, r, s);
    PhaseStep(t, m, s, b, Parking(r), Enlist(m, r, s), Waiting(r, |m.channels|));
  }

  lemma WakeStep(t: nat, m: Shared, s: Service, b: nat, r: Resource, ch: nat)
    requires Before(t, m, Starting(s, b, Waiting(r, ch))) && ch < |m.channels| && m.channels[ch].value.Some?
    ensures After(t, m, Take(m, ch), Starting(s, b, Leaving(r, m.channels[ch].value)))
  {
    Holder(t, m, s, b, Waiting(r, ch));
    LoopOwns(t, m, s, b, Waiting(r, ch));
    assert Entry(m.change, r, s) == Some(ch);
    assert PhaseOk(Take(m, ch), s, b, Leaving(r, m.channels[ch].value));
    ChangeEntry(m, r, s);
    hide SharedOk, Guar, Before, After, Legal, Known, PhaseOk, Owns;
    TakeLegal(t, m, ch);
    PhaseStep(t, m, s, b, Waiting(r, ch), Take(m, ch), Leaving(r, m.channels[ch].value));
  }

  lemma LeavePhase(m: Shared, s: Service, b: nat, r: Resource, signal: Option<bool>)
    requires b < |m.instances| && PhaseOk(m, s, b, Leaving(r, signal))
    ensures PhaseOk(m.(change := Unregister(m.change, {r}, s)), s, b,
                    if signal.Some? then Pass(signal.value) else Refused)
  {
    UnregisterEntry(m.change, {r}, s);
    hide Unregister;
  }

  lemma LeaveStep(t: nat, m: Shared, s: Service, b: nat, r: Resource, signal: Option<bool>)
    requires Before(t, m, Starting(s, b, Leaving(r, signal)))
    ensures After(t, m, m.(change := Unregister(m.change, {r}, s)),
                  Starting(s, b, if signal.Some? then Pass(signal.value) else Refused))
  {
    Holder(t, m, s, b, Leaving(r, signal));
    LoopOwns(t, m, s, b, Leaving(r, signal));
    LeavePhase(m, s, b, r, signal);
    hide SharedOk, Guar, Before, After, Legal, Known, PhaseOk, Owns, Unregister;
    DropChangeLegal(t, m, {r}, s);
    PhaseStep(t, m, s, b, Leaving(r, signal), m.(change := Unregister(m.change, {r}, s)),
              if signal.Some? then Pass(signal.value) else Refused);
  }

  lemma PassSteps(t: nat, a: Action, m: Shared, s: Service, b: nat, recheck: bool, m': Shared, pc': Pc)
    requires Before(t, m, Starting(s, b, Pass(recheck))) && b < |m.instances|
    requires PassStep(a, m, s, b, recheck, m', pc')
    ensures After(t, m, m', pc')
  {
    hide SharedOk, Guar, ThreadOk, Known, Legal;
    match a
    case PassCommit => CommitStep(t, m, s, b, recheck);
    case PassAsk(chans) => AskStep(t, m, s, b, recheck, chans, m');
    case PassLack(r) => LackStep(t, m, s, b, recheck, r);
  }

  lemma PendingLocals(t: nat, m: Shared, s: Service, b: nat, chans: map<Resource, nat>, todo: set<Resource>, ok: bool)
    requires Before(t, m, Starting(s, b, Pending(chans, todo))) && (ok ==> todo == {})
    ensures After(t, m, m, Starting(s, b, PendingDone(chans, ok)))
  {
    hide SharedOk, Guar, HoldsOk, Known;
    LocalStep(t, m, Starting(s, b, Pending(chans, todo)), Starting(s, b, PendingDone(chans, ok)));
  }

  lemma PendingSteps(t: nat, a: Action, m: Shared, s: Service, b: nat, chans: map<Resource, nat>, todo: set<Resource>,
                     m': Shared, pc': Pc)
    requires Before(t, m, Starting(s, b, Pending(chans, todo)))
    requires PendingStep(a, m, s, b, chans, todo, m', pc')
    ensures After(t, m, m', pc')
  {
    hide SharedOk, Guar, ThreadOk, Known, Legal;
    match a
    case PendingReceive(r) => ReceiveStep(t, m, s, b, chans, todo, r);
    case PendingFinish => PendingLocals(t, m, s, b, chans, todo, true);
    case PendingAbort => PendingLocals(t, m, s, b, chans, todo, false);
  }

  // ---------------------------------------------------------------- starting the command

  lemma CleanUpKeepsHolder(m: Shared, i: nat)
    requires i < |m.instances|
    ensures |CleanUp(m, i).instances| == |m.instances|
    ensures forall k :: 0 <= k < |m.instances| ==> CleanUp(m, i).instances[k].holder == m.instances[k].holder
    ensures CleanUp(m, i).instances[i].released && CleanUp(m, i).instances[i].svc == m.instances[i].svc
    ensures CleanUp(m, i).cfg == m.cfg
  {
    hide Fill, Listeners, Minus;
    var x := m.instances[i];
    if !x.released {
      assert CleanUp(m, i).instances == m.instances[i := x.(released := true, timer := false)];
    }
  }

  lemma RefuseStep(t: nat, m: Shared, s: Service, b: nat)
    requires Before(t, m, Starting(s, b, Refused))
    ensures After(t, m, CleanUp(m, b), Unlocking(s, b, ToGiveUp))
  {
    hide SharedOk, Guar, After, Legal, Known, CleanUp, NoEntries;
    Holder(t, m, s, b, Refused);
    CleanUpLegal(t, m, b);
    CleanUpKeepsHolder(m, b);
    hide Before;
    HoldersStep(t, m, Starting(s, b, Refused), CleanUp(m, b), Unlocking(s, b, ToGiveUp));
  }

  lemma ConfirmStep(t: nat, m: Shared, s: Service, b: nat)
    requires Before(t, m, Starting(s, b, Reserved))
    ensures After(t, m, Mark(m, b), Starting(s, b, Spawning))
  {
    hide SharedOk, Guar, Before, After, Legal, Known;
    Holder(t, m, s, b, Reserved);
    MarkLegal(t, m, b);
    HoldersStep(t, m, Starting(s, b, Reserved), Mark(m, b), Starting(s, b, Spawning));
  }

  lemma SpawnFailedLegal(t: nat, m: Shared, s: Service, b: nat)
    requires SharedOk(m) && b < |m.instances| && m.instances[b].holder == Some(t) && m.instances[b].marked
    ensures Legal(t, m, CleanUp(GiveBack(m, s), b))
  {
    hide SharedOk, Guar;
    InstanceFacts(m, b);
    GiveBackLegal(t, m, s);
    CleanUpLegal(t, GiveBack(m, s), b);
    GuarTrans(t, m, GiveBack(m, s), CleanUp(GiveBack(m, s), b));
  }

  lemma SpawnFailedStep(t: nat, m: Shared, s: Service, b: nat)
    requires Before(t, m, Starting(s, b, SpawnFailed))
    ensures After(t, m, CleanUp(GiveBack(m, s), b), Unlocking(s, b, ToGiveUp))
  {
    hide SharedOk, Guar, Before, After, Legal, Known, CleanUp, Minus;
    Holder(t, m, s, b, SpawnFailed);
    SpawnFailedLegal(t, m, s, b);
    CleanUpKeepsHolder(GiveBack(m, s), b);
    HoldersStep(t, m, Starting(s, b, SpawnFailed), CleanUp(GiveBack(m, s), b), Unlocking(s, b, ToGiveUp));
  }

  lemma RecordStep(t: nat, m: Shared, s: Service, b: nat)
    requires Before(t, m, Starting(s, b, Spawned))
    ensures After(t, m, SetCommand(m, b), Starting(s, b, Probing))
    ensures Newcomer(SetCommand(m, b), Reaping(s, b))
  {
    hide SharedOk, Guar, Before, After, Legal, Known;
    Holder(t, m, s, b, Spawned);
    SetCommandLegal(t, m, b);
    HoldersStep(t, m, Starting(s, b, Spawned), SetCommand(m, b), Starting(s, b, Probing));
  }

  lemma ReadyStep(t: nat, m: Shared, s: Service, b: nat)
    requires Before(t, m, Starting(s, b, MakingReady))
    ensures After(t, m, MakeReady(m, b), Unlocking(s, b, ToConnected))
  {
    hide SharedOk, Guar, Before, After, Legal, Known;
    Holder(t, m, s, b, MakingReady);
    MakeReadyLegal(t, m, b);
    HoldersStep(t, m, Starting(s, b, MakingReady), MakeReady(m, b), Unlocking(s, b, ToConnected));
  }

  lemma LoopSteps(t: nat, a: Action, m: Shared, s: Service, b: nat, phase: Phase, m': Shared, pc': Pc, spawn: seq<Pc>)
    requires Before(t, m, Starting(s, b, phase)) && b < |m.instances|
    requires StartStep(t, a, m, s, b, phase, m', pc', spawn)
    requires phase.Pass? || phase.Pending? || phase.PendingDone? || phase.Lacking? || phase.Parking? || phase.Waiting?
             || phase.Leaving?
    ensures After(t, m, m', pc')
  {
    hide SharedOk, Guar, ThreadOk, Known, Legal, PassStep, PendingStep;
    match phase
    case Pass(recheck) => PassSteps(t, a, m, s, b, recheck, m', pc');
    case Pending(chans, todo) => PendingSteps(t, a, m, s, b, chans, todo, m', pc');
    case PendingDone(chans, ok) => DropStep(t, m, s, b, chans, ok);
    case Lacking(r) => if a.EvictPick? { PickStep(t, m, s, b, r, a.v, a.now); } else { NoVictimStep(t, m, s, b, r); }
    case Parking(r) => EnlistStep(t, m, s, b, r);
    case Waiting(r, ch) => if a.WaitReceive? { WakeStep(t, m, s, b, r, ch); } else { AbandonStep(t, m, s, b, r, ch); }
    case Leaving(r, signal) => LeaveStep(t, m, s, b, r, signal);
  }

  lemma NoVictimStep(t: nat, m: Shared, s: Service, b: nat, r: Resource)
    requires Before(t, m, Starting(s, b, Lacking(r)))
    ensures After(t, m, m, Starting(s, b, Parking(r)))
  {
    hide SharedOk, Guar, HoldsOk, Known;
    LocalStep(t, m, Starting(s, b, Lacking(r)), Starting(s, b, Parking(r)));
  }

  lemma AbandonStep(t: nat, m: Shared, s: Service, b: nat, r: Resource, ch: nat)
    requires Before(t, m, Starting(s, b, Waiting(r, ch)))
    ensures After(t, m, m, Starting(s, b, Leaving(r, None)))
  {
    hide SharedOk, Guar;
    LocalStep(t, m, Starting(s, b, Waiting(r, ch)), Starting(s, b, Leaving(r, None)));
  }

  lemma ProbeGoes(m: Shared, s: Service, b: nat, phase: Phase, pc': Pc)
    requires b < |m.instances| && m.instances[b].svc == s && PhaseOk(m, s, b, phase)
    requires match phase
             case Spawning => pc' == Starting(s, b, Spawned) || pc' == Starting(s, b, SpawnFailed)
             case Probing => pc' == Starting(s, b, Connecting) || pc' == Unlocking(s, b, ToAbort)
             case Connecting => pc' == Starting(s, b, MakingReady) || pc' == Unlocking(s, b, ToAbort)
             case _ => false
    ensures GoesTo(m, Starting(s, b, phase), pc')
  {
    hide NoEntries, AllFresh;
  }

  /** Steps that run the command, the health check or the first connection attempts. */
  lemma ProbeStep(t: nat, m: Shared, s: Service, b: nat, phase: Phase, pc': Pc)
    requires Before(t, m, Starting(s, b, phase))
    requires match phase
             case Spawning => pc' == Starting(s, b, Spawned) || pc' == Starting(s, b, SpawnFailed)
             case Probing => pc' == Starting(s, b, Connecting) || pc' == Unlocking(s, b, ToAbort)
             case Connecting => pc' == Starting(s, b, MakingReady) || pc' == Unlocking(s, b, ToAbort)
             case _ => false
    ensures After(t, m, m, pc')
  {
    Holder(t, m, s, b, phase);
    ProbeGoes(m, s, b, phase, pc');
    hide SharedOk, Before, After, GoesTo, PhaseOk;
    Goes(t, m, Starting(s, b, phase), pc');
  }

  lemma CommandSteps(t: nat, a: Action, m: Shared, s: Service, b: nat, phase: Phase, m': Shared, pc': Pc,
                     spawn: seq<Pc>)
    requires Before(t, m, Starting(s, b, phase)) && b < |m.instances|
    requires StartStep(t, a, m, s, b, phase, m', pc', spawn)
    requires !phase.Pass? && !phase.Pending? && !phase.PendingDone? && !phase.Lacking? && !phase.Parking?
             && !phase.Waiting? && !phase.Leaving?
    ensures After(t, m, m', pc') && Newcomers(m', spawn)
  {
    hide SharedOk, Guar, Before, After, Legal, PcOk, CleanUp, Newcomer;
    if phase.Refused? {
      RefuseStep(t, m, s, b);
    } else if phase.Reserved? {
      ConfirmStep(t, m, s, b);
    } else if phase.SpawnFailed? {
      SpawnFailedStep(t, m, s, b);
    } else if phase.Spawned? {
      RecordStep(t, m, s, b);
    } else if phase.MakingReady? {
      ReadyStep(t, m, s, b);
    } else {
      ProbeStep(t, m, s, b, phase, pc');
    }
  }

  // ---------------------------------------------------------------- stopping and unlocking

  ghost predicate ReadyToResume(t: nat, m: Shared, m1: Shared, k: Cont) {
    && Legal(t, m, m1) && m1.channels == m.channels && m1.cfg == m.cfg && |m1.instances| == |m.instances|
    && ContOk(m1, k)
    && (forall i :: 0 <= i < |m.instances| && m1.instances[i].holder == Some(t) ==> m.instances[i].holder == Some(t))
    && (forall s :: Owns(m1, t, s) ==> Owns(m, t, s))
    && (forall i :: 0 <= i < |m1.instances| ==> (m1.instances[i].holder == Some(t) <==> i in Own(k)))
    && (Client(k).Some? ==> Client(k).value in m.cfg.requirements)
  }

  lemma ResumeLoop(t: nat, m: Shared, m1: Shared, s: Service, b: nat)
    requires ReadyToResume(t, m, m1, AfterEvict(s, b))
    ensures After(t, m, ResetSince(m1, b), Starting(s, b, Pass(true)))
  {
    hide SharedOk, Guar, Owns;
    assert Legal(t, m, ResetSince(m1, b)) by {
      hide SharedOk, Guar, Owns;
      assert b in Own(AfterEvict(s, b));
      ResetSinceLegal(t, m1, b);
      GuarTrans(t, m, m1, ResetSince(m1, b));
    }
    var m2 := ResetSince(m1, b);
    assert b in Own(AfterEvict(s, b));
    assert forall r :: Entry(m2.change, r, s) == Entry(m1.change, r, s);
    assert forall r :: Entry(m2.first, r, s) == Entry(m1.first, r, s);
  }

  lemma ResumeStep(t: nat, m: Shared, m1: Shared, k: Cont)
    requires ReadyToResume(t, m, m1, k)
    ensures After(t, m, Resume(m1, k), ResumePc(k))
  {
    hide SharedOk, Guar, Owns;
    match k
    case AfterEvict(s, b) => ResumeLoop(t, m, m1, s, b);
    case _ =>
  }

  lemma UnlockStep(t: nat, m: Shared, s: Service, i: nat, after: Then)
    requires Before(t, m, Unlocking(s, i, after)) && !after.ToCont?
    ensures After(t, m, Free(m, i), UnlockedPc(s, i, after))
  {
    hide SharedOk, Guar;
    assert i in Holds(Unlocking(s, i, after));
    FreeLegal(t, m, i);
  }

  lemma UnlockResumeStep(t: nat, m: Shared, s: Service, i: nat, k: Cont)
    requires Before(t, m, Unlocking(s, i, ToCont(k)))
    ensures After(t, m, Resume(Free(m, i), k), ResumePc(k))
  {
    hide SharedOk, Guar;
    var pc := Unlocking(s, i, ToCont(k));
    assert i in Holds(pc);
    FreeLegal(t, m, i);
    var m1 := Free(m, i);
    NotOwn(t, m, s, i, k);
    assert forall q :: Owns(m1, t, q) ==> Owns(m, t, q);
    assert forall n :: n in Own(k) ==> n in Holds(pc);
    ResumeStep(t, m, m1, k);
  }

  lemma SameEntries(m: Shared, m': Shared, s: Service)
    requires m'.change == m.change && m'.first == m.first
    ensures NoEntries(m', s) == NoEntries(m, s)
  {
    assert forall r :: Entry(m'.change, r, s) == Entry(m.change, r, s) && Entry(m'.first, r, s) == Entry(m.first, r, s);
  }

  /** A settled instance is not the one whose reservation waits. */
  lemma NotOwn(t: nat, m: Shared, s: Service, i: nat, k: Cont)
    requires Before(t, m, Unlocking(s, i, ToCont(k)))
    ensures i !in Own(k)
  {
    hide SharedOk, Guar;
  }

  lemma FindStep(t: nat, m: Shared, v: Service, k: Cont)
    requires Before(t, m, StopLookup(v, k)) && v in m.running
    ensures After(t, m, m, StopWait(v, m.running[v], k))
  {
    hide SharedOk, Guar;
    Registered(m, v);
    LocalStep(t, m, StopLookup(v, k), StopWait(v, m.running[v], k));
  }

  lemma MissStep(t: nat, m: Shared, v: Service, k: Cont)
    requires Before(t, m, StopLookup(v, k))
    ensures After(t, m, Resume(m, k), ResumePc(k))
  {
    hide SharedOk, Guar;
    SameLegal(t, m);
    ResumeStep(t, m, m, k);
  }

  lemma LockStep(t: nat, m: Shared, v: Service, i: nat, k: Cont)
    requires Before(t, m, StopWait(v, i, k)) && i < |m.instances| && m.instances[i].holder.None?
    ensures After(t, m, Acquire(m, i, t), StopHold(v, i, k))
  {
    hide SharedOk, Guar;
    InstanceFacts(m, i);
    AcquireStep(t, m, StopWait(v, i, k), i, StopHold(v, i, k));
  }

  lemma KillStep(t: nat, m: Shared, v: Service, i: nat, k: Cont, pc': Pc)
    requires Before(t, m, StopHold(v, i, k)) && (pc' == StopClean(v, i, k) || pc' == Unlocking(v, i, ToCont(k)))
    ensures After(t, m, m, pc')
  {
    hide SharedOk, Guar;
    LocalStep(t, m, StopHold(v, i, k), pc');
  }

  /** Another instance's clean-up leaves a reservation in flight alone. */
  lemma CleanUpContOk(t: nat, m: Shared, i: nat, k: Cont)
    requires i < |m.instances| && ContOk(m, k) && !(k.AfterEvict? && k.b == i)
    ensures ContOk(CleanUp(m, i), k)
  {
    hide CleanUp, NoEntries;
    CleanUpFrame(m, i);
    var m' := CleanUp(m, i);
    if k.AfterEvict? {
      SameEntries(m, m', k.svc);
    }
  }

  lemma CleanUpFrame(m: Shared, i: nat)
    requires i < |m.instances|
    ensures CleanUp(m, i).change == m.change && CleanUp(m, i).first == m.first
    ensures |CleanUp(m, i).instances| == |m.instances|
    ensures forall k :: 0 <= k < |m.instances| && k != i ==> CleanUp(m, i).instances[k] == m.instances[k]
  {
    hide Fill, Listeners, Minus;
    var x := m.instances[i];
    if !x.released {
      assert CleanUp(m, i).instances == m.instances[i := x.(released := true, timer := false)];
    }
  }

  lemma CleaningFacts(t: nat, m: Shared, v: Service, i: nat, k: Cont)
    requires Before(t, m, StopClean(v, i, k))
    ensures SharedOk(m) && ContOk(m, k) && Birth(m, i, v) && m.instances[i].holder == Some(t)
    ensures !m.instances[i].released ==> m.instances[i].committed
    ensures !(k.AfterEvict? && k.b == i)
  {
    assert i in Holds(StopClean(v, i, k));
    BeforeFacts(t, m, StopClean(v, i, k));
    InstanceFacts(m, i);
    hide SharedOk, NoEntries, Known;
  }

  lemma CleanGoes(m: Shared, v: Service, i: nat, k: Cont)
    requires Birth(m, i, v) && ContOk(CleanUp(m, i), k)
    ensures Holds(Unlocking(v, i, ToCont(k))) == Holds(StopClean(v, i, k))
    ensures WaitsOn(Unlocking(v, i, ToCont(k))) == WaitsOn(StopClean(v, i, k))
    ensures PcOk(CleanUp(m, i), Unlocking(v, i, ToCont(k)))
  {
    CleanUpKeepsHolder(m, i);
    hide CleanUp, ContOk;
  }

  lemma StopCleanStep(t: nat, m: Shared, v: Service, i: nat, k: Cont)
    requires Before(t, m, StopClean(v, i, k))
    ensures After(t, m, CleanUp(m, i), Unlocking(v, i, ToCont(k)))
  {
    CleaningFacts(t, m, v, i, k);
    CleanUpContOk(t, m, i, k);
    CleanUpKeepsHolder(m, i);
    CleanGoes(m, v, i, k);
    hide *;
    CleanUpLegal(t, m, i);
    HoldersStep(t, m, StopClean(v, i, k), CleanUp(m, i), Unlocking(v, i, ToCont(k)));
  }

  // ---------------------------------------------------------------- timers and processes

  lemma EndFacts(m: Shared, s: Service, i: nat)
    ensures PcOk(m, Done) && Holds(Done) == {} && WaitsOn(Done).None? && Holds(Reaped(s, i)) == {}
  {
  }

  lemma ReapGoes(t: nat, m: Shared, s: Service, i: nat)
    requires Before(t, m, Reaped(s, i)) && i < |m.instances| && Legal(t, m, CleanUp(m, i))
    ensures After(t, m, CleanUp(m, i), Done)
  {
    CleanUpKeepsHolder(m, i);
    EndFacts(CleanUp(m, i), s, i);
    hide *;
    Goer(t, m, Reaped(s, i), CleanUp(m, i), Done);
  }

  lemma ReapStep(t: nat, m: Shared, s: Service, i: nat)
    requires Before(t, m, Reaped(s, i))
    ensures After(t, m, CleanUp(m, i), Done)
  {
    CleanUpKeepsHolder(m, i);
    hide *;
    CleanUpLegal(t, m, i);
    ReapGoes(t, m, s, i);
  }

  lemma IdleStep(t: nat, m: Shared, s: Service, i: nat, pc': Pc)
    requires Before(t, m, IdleFired(s, i)) && (pc' == StopLookup(s, AfterIdle) || pc' == Done)
    ensures After(t, m, m, pc')
  {
    hide SharedOk, Guar;
    LocalStep(t, m, IdleFired(s, i), pc');
  }

  lemma ReturnStep(t: nat, m: Shared, s: Service, b: nat)
    requires Before(t, m, Returning(s, b))
    ensures After(t, m, GiveBack(m, s), GivingUp(s))
  {
    hide SharedOk, Guar;
    GiveBackLegal(t, m, s);
  }

  /** The step theorem. */
  lemma StepOk(t: nat, a: Action, m: Shared, pc: Pc, m': Shared, pc': Pc, spawn: seq<Pc>)
    requires Before(t, m, pc) && Step(t, a, m, pc, m', pc', spawn)
    ensures After(t, m, m', pc') && Newcomers(m', spawn)
  {
    hide *;
    if pc.Starting? {
      StartSteps(t, a, m, pc, m', pc', spawn);
    } else if pc.StopLookup? || pc.StopWait? || pc.StopHold? || pc.StopClean? {
      StopSteps(t, a, m, pc, m', pc', spawn);
    } else if pc.Unlocking? || pc.IdleFired? || pc.Reaping? || pc.Reaped? || pc.Returning? {
      OtherSteps(t, a, m, pc, m', pc', spawn);
    } else {
      RequestSteps(t, a, m, pc, m', pc', spawn);
    }
  }

  ghost predicate Newcomers(m: Shared, spawn: seq<Pc>) {
    forall k :: 0 <= k < |spawn| ==> Newcomer(m, spawn[k])
  }

  lemma StartSteps(t: nat, a: Action, m: Shared, pc: Pc, m': Shared, pc': Pc, spawn: seq<Pc>)
    requires Before(t, m, pc) && Step(t, a, m, pc, m', pc', spawn) && pc.Starting?
    ensures After(t, m, m', pc') && Newcomers(m', spawn)
  {
    hide SharedOk, Guar, ThreadOk, Known, Legal, PcOk, StartStep, ClientStep;
    var Starting(s, b, phase) := pc;
    if phase.Pass? || phase.Pending? || phase.PendingDone? || phase.Lacking? || phase.Parking? || phase.Waiting?
       || phase.Leaving? {
      LoopSteps(t, a, m, s, b, phase, m', pc', spawn);
      NoSpawn(t, a, m, s, b, phase, m', pc', spawn);
    } else {
      CommandSteps(t, a, m, s, b, phase, m', pc', spawn);
    }
  }

  lemma RequestSteps(t: nat, a: Action, m: Shared, pc: Pc, m': Shared, pc': Pc, spawn: seq<Pc>)
    requires Before(t, m, pc) && Step(t, a, m, pc, m', pc', spawn)
    requires !pc.Starting? && !pc.StopLookup? && !pc.StopWait? && !pc.StopHold? && !pc.StopClean?
    requires !pc.Unlocking? && !pc.IdleFired? && !pc.Reaping? && !pc.Reaped? && !pc.Returning?
    ensures After(t, m, m', pc') && Newcomers(m', spawn)
  {
    hide SharedOk, Guar, ThreadOk, Known, Legal, PcOk, StartStep, ClientStep;
    ClientSteps(t, a, m, pc, m', pc', spawn);
    ClientNoSpawn(t, a, m, pc, m', pc', spawn);
  }

  lemma OtherSteps(t: nat, a: Action, m: Shared, pc: Pc, m': Shared, pc': Pc, spawn: seq<Pc>)
    requires Before(t, m, pc) && Step(t, a, m, pc, m', pc', spawn)
    requires pc.Unlocking? || pc.IdleFired? || pc.Reaping? || pc.Reaped? || pc.Returning?
    ensures After(t, m, m', pc') && Newcomers(m', spawn)
  {
    hide SharedOk, Guar, Before, After, Legal, PcOk, StartStep, ClientStep, CleanUp, Resume, Free;
    if pc.Unlocking? {
      assert After(t, m, m', pc') && spawn == [] by {
        hide SharedOk, Guar, Before, After, Legal, PcOk, StartStep, ClientStep, Resume, Free;
        if pc.after.ToCont? {
          UnlockResumeStep(t, m, pc.svc, pc.i, pc.after.k);
        } else {
          UnlockStep(t, m, pc.svc, pc.i, pc.after);
        }
      }
    } else if pc.IdleFired? {
      IdleStep(t, m, pc.svc, pc.i, pc');
    } else if pc.Reaping? {
      ExitStep(t, m, pc.svc, pc.i);
    } else if pc.Returning? {
      ReturnStep(t, m, pc.svc, pc.b);
    } else if pc.svc in m.cfg.stopOnExit {
      ReapStep(t, m, pc.svc, pc.i);
    } else {
      ReapNothingStep(t, m, pc.svc, pc.i);
    }
  }

  lemma StopSteps(t: nat, a: Action, m: Shared, pc: Pc, m': Shared, pc': Pc, spawn: seq<Pc>)
    requires Before(t, m, pc) && Step(t, a, m, pc, m', pc', spawn)
    requires pc.StopLookup? || pc.StopWait? || pc.StopHold? || pc.StopClean?
    ensures After(t, m, m', pc') && Newcomers(m', spawn)
  {
    hide SharedOk, Guar, ThreadOk, Known, Legal, PcOk, StartStep, ClientStep;
    match pc
    case StopLookup(v, k) => if v in m.running { FindStep(t, m, v, k); } else { MissStep(t, m, v, k); }
    case StopWait(v, i, k) => LockStep(t, m, v, i, k);
    case StopHold(v, i, k) => KillStep(t, m, v, i, k, pc');
    case StopClean(v, i, k) => StopCleanStep(t, m, v, i, k);
  }

  lemma ExitStep(t: nat, m: Shared, s: Service, i: nat)
    requires Before(t, m, Reaping(s, i))
    ensures After(t, m, m, Reaped(s, i))
  {
    hide SharedOk, Guar;
    LocalStep(t, m, Reaping(s, i), Reaped(s, i));
  }

  lemma ReapNothingStep(t: nat, m: Shared, s: Service, i: nat)
    requires Before(t, m, Reaped(s, i))
    ensures After(t, m, m, Done)
  {
    hide SharedOk, Guar;
    LocalStep(t, m, Reaped(s, i), Done);
  }

  lemma NoSpawn(t: nat, a: Action, m: Shared, s: Service, b: nat, phase: Phase, m': Shared, pc': Pc, spawn: seq<Pc>)
    requires b < |m.instances| && StartStep(t, a, m, s, b, phase, m', pc', spawn) && !phase.Spawned?
    ensures spawn == []
  {
  }

  lemma ClientNoSpawn(t: nat, a: Action, m: Shared, pc: Pc, m': Shared, pc': Pc, spawn: seq<Pc>)
    requires ClientStep(t, a, m, pc, m', pc', spawn)
    ensures spawn == []
  {
  }
}
