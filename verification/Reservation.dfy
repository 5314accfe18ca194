/** reserveResources as the program has it: one loop that checks, evicts, measures and waits. It runs on
    the manager's maps; the other goroutines move before each of its critical sections. */
module Reservation {
  import opened Model
  import opened Machine
  import opened Invariant
  import opened Steps
  import opened Eviction
  import opened Manager
  import opened Scheduling
  import opened Stopping

  // ---------------------------------------------------------------- stopping a victim alone

  /** The effect of an eviction when nobody else moves. */
  function Stopped(m: Shared, v: Service, b: nat, me: nat): Shared
    requires b < |m.instances| && (v in m.running ==> m.running[v] < |m.instances|)
  {
    ResetSince(Killed(m, v, me), b)
  }

  lemma VictimFacts(m: Shared, s: Service, r: Resource, now: int, v: Service, me: nat)
    requires IsVictim(m, s, r, now, v)
    ensures Eligible(m, s, r, now, v)
    ensures v in m.running && m.running[v] < |m.instances| && m.instances[m.running[v]].holder.None? && v != s
    ensures |Acquire(m, m.running[v], me).instances| == |m.instances|
  {
  }

  lemma OwnFacts(me: nat, m: Shared, s: Service, b: nat, phase: Phase)
    requires Before(me, m, Starting(s, b, phase))
    ensures b < |m.instances| && m.instances[b].svc == s && m.instances[b].holder == Some(me)
    ensures phase.Pass? ==> InReserve(m.instances[b])
  {
    assert b in Holds(Starting(s, b, phase));
    hide SharedOk, NoEntries, AllFresh, Known;
  }

  /** A stop takes exactly the victim out of the registry. */
  lemma StopUnregisters(me: nat, m: Shared, b: nat, v: Service)
    requires SharedOk(m) && b < |m.instances| && v in m.running && m.running[v] < |m.instances|
    ensures Stopped(m, v, b, me).running == m.running - {v} && Stopped(m, v, b, me).reserved == m.reserved
  {
    Registered(m, v);
    assert !m.instances[m.running[v]].released;
  }

  // ---------------------------------------------------------------- one pass

  /** An eviction: the pass that found `r` missing, the state of the choice, and who had to go. */
  datatype Victim = Victim(found: Shared, at: Shared, recheck: bool, r: Resource, now: int, v: Service)

  /** Where the reservation waited, for want of a victim. */
  datatype Wait = Wait(found: Shared, at: Shared, recheck: bool, r: Resource, now: int)

  /** The victim uses the resource found short in that pass, and was least recently used of those. */
  ghost predicate Justified(s: Service, e: Victim) {
    && PassLacks(e.found, s, e.recheck, e.r)
    && IsVictim(e.at, s, e.r, e.now, e.v) && e.at.cfg.Need(e.v, e.r) != 0
  }

  /** No service that uses the missing resource could be stopped. */
  ghost predicate Exhausted(s: Service, w: Wait) {
    && PassLacks(w.found, s, w.recheck, w.r)
    && forall v :: !Eligible(w.at, s, w.r, w.now, v)
  }

  function Names(evictions: seq<Victim>): seq<Service> {
    seq(|evictions|, i requires 0 <= i < |evictions| => evictions[i].v)
  }

  function Gone(evictions: seq<Victim>): set<Service> {
    set i | 0 <= i < |evictions| :: evictions[i].v
  }

  lemma GoneMore(running: map<Service, nat>, evictions: seq<Victim>, e: Victim)
    ensures running - Gone(evictions) - {e.v} == running - Gone(evictions + [e])
  {
    var more := evictions + [e];
    assert Gone(more) == Gone(evictions) + {e.v} by {
      forall v ensures v in Gone(more) <==> v in Gone(evictions) + {e.v} {
        if v in Gone(evictions) {
          var i :| 0 <= i < |evictions| && evictions[i].v == v;
          assert more[i].v == v;
        }
        assert more[|evictions|] == e;
      }
    }
  }

  /** The instance that was chosen, by birth. */
  function Evictee(e: Victim): int {
    if e.v in e.at.running then e.at.running[e.v] else -1
  }

  /** It was stopped. */
  ghost predicate Ousted(m: Shared, e: Victim) {
    0 <= Evictee(e) < |m.instances| && m.instances[Evictee(e)].svc == e.v && m.instances[Evictee(e)].released
  }

  /** Every eviction stopped another instance, and each left one service less registered, not counting
      those started since. */
  ghost predicate Evicted(m0: Shared, m: Shared, evictions: seq<Victim>) {
    && Grows(m0, m) && Renews(m0, m)
    && |evictions| + |m.running.Keys| + |m0.instances| <= |m0.running.Keys| + |m.instances|
    && (forall i :: 0 <= i < |evictions| ==> Ousted(m, evictions[i]))
    && forall i, j :: 0 <= i < j < |evictions| ==> Evictee(evictions[i]) != Evictee(evictions[j])
  }

  lemma StaysOusted(m: Shared, m': Shared, e: Victim)
    requires Ousted(m, e) && Grows(m, m')
    ensures Ousted(m', e)
  {
    assert Ages(m.instances[Evictee(e)], m'.instances[Evictee(e)]);
  }

  lemma StayOusted(m: Shared, m': Shared, evictions: seq<Victim>)
    requires Grows(m, m') && forall i :: 0 <= i < |evictions| ==> Ousted(m, evictions[i])
    ensures forall i :: 0 <= i < |evictions| ==> Ousted(m', evictions[i])
  {
    hide Ousted, Grows;
    forall i | 0 <= i < |evictions| ensures Ousted(m', evictions[i]) {
      StaysOusted(m, m', evictions[i]);
    }
  }

  lemma EvictedStays(m0: Shared, m: Shared, evictions: seq<Victim>, m': Shared)
    requires Evicted(m0, m, evictions) && Grows(m, m') && Renews(m, m') && SharedOk(m')
    ensures Evicted(m0, m', evictions)
  {
    GrowsTrans(m0, m, m');
    RenewsTrans(m0, m, m');
    Renewed(m, m');
    StayOusted(m, m', evictions);
    hide Grows, Renews, SharedOk, Ousted, Evictee;
  }

  lemma EvictedOne(m0: Shared, m: Shared, evictions: seq<Victim>, e: Victim, m': Shared)
    requires Evicted(m0, m, evictions) && Grows(m, e.at) && Renews(m, e.at) && SharedOk(e.at)
    requires Grows(e.at, m') && Renews(e.at, m') && SharedOk(m')
    requires e.v in e.at.running && AllReleased(e.at, m', e.v)
    requires e.v in m'.running ==> |e.at.instances| <= m'.running[e.v]
    ensures Evicted(m0, m', evictions + [e])
  {
    assert Ousted(m', e);
    hide Grows, Renews, SharedOk, Ousted, Evictee, AllReleased;
    EvictedStays(m0, m, evictions, e.at);
    AnotherChosen(e, evictions);
    GrowsTrans(m0, e.at, m');
    RenewsTrans(m0, e.at, m');
    RenewedWithout(e.at, m', e.v);
    StayOusted(e.at, m', evictions);
    OneMore(m', evictions, e);
  }

  lemma OneMore(m: Shared, evictions: seq<Victim>, e: Victim)
    requires Ousted(m, e) && forall i :: 0 <= i < |evictions| ==> Ousted(m, evictions[i])
    requires forall i :: 0 <= i < |evictions| ==> Evictee(evictions[i]) != Evictee(e)
    requires forall i, j :: 0 <= i < j < |evictions| ==> Evictee(evictions[i]) != Evictee(evictions[j])
    ensures var more := evictions + [e];
            && (forall i :: 0 <= i < |more| ==> Ousted(m, more[i]))
            && forall i, j :: 0 <= i < j < |more| ==> Evictee(more[i]) != Evictee(more[j])
  {
    hide Ousted, Evictee;
    var more := evictions + [e];
    assert forall i :: 0 <= i < |more| ==> more[i] == if i < |evictions| then evictions[i] else e;
  }

  /** The chosen instance was not released when it was chosen. */
  lemma AnotherChosen(e: Victim, evictions: seq<Victim>)
    requires SharedOk(e.at) && e.v in e.at.running && forall i :: 0 <= i < |evictions| ==> Ousted(e.at, evictions[i])
    ensures forall i :: 0 <= i < |evictions| ==> Evictee(evictions[i]) != Evictee(e)
  {
    Registered(e.at, e.v);
    assert !e.at.instances[Evictee(e)].released;
  }

  /** A choice of a reservation that runs alone, after `vs` were stopped: the resource does not suffice, and of those
      who use it and could be stopped at first, the victim was least recently used but for `vs`. */
  ghost predicate SoloPick(m0: Shared, s: Service, start: int, e: Victim, vs: seq<Service>) {
    && start <= e.now && e.r in m0.cfg.Requirement(s) && e.r !in m0.cfg.check && !Fits(m0, s, e.r, vs)
    && Eligible(m0, s, e.r, e.now, e.v) && e.v !in vs
    && forall w :: Eligible(m0, s, e.r, e.now, w) && w !in vs ==> LastUsed(m0, e.v) <= LastUsed(m0, w)
  }

  ghost predicate Solo(m0: Shared, s: Service, start: int, evictions: seq<Victim>) {
    forall j :: 0 <= j < |evictions| ==> SoloPick(m0, s, start, evictions[j], Names(evictions[..j]))
  }

  /** What a reservation that runs alone has done so far. */
  ghost predicate SoloSoFar(m0: Shared, m: Shared, s: Service, start: int, evictions: seq<Victim>) {
    Thinned(m0, m, s, Names(evictions)) && Solo(m0, s, start, evictions)
  }

  lemma SoloStart(m0: Shared, s: Service, start: int)
    ensures SoloSoFar(m0, m0, s, start, [])
  {
  }

  lemma SoloChoice(m0: Shared, m: Shared, s: Service, start: int, vs: seq<Service>, e: Victim)
    requires Thinned(m0, m, s, vs) && start <= e.now
    requires PassLacks(m, s, true, e.r) && IsVictim(m, s, e.r, e.now, e.v)
    ensures SoloPick(m0, s, start, e, vs)
  {
    StillShort(m0, m, s, vs, e.r);
    StillEligible(m0, m, s, vs, e.r, e.now, e.v);
    hide Thinned, Eligible, StaticShort, Fits;
    forall w | Eligible(m0, s, e.r, e.now, w) && w !in vs ensures LastUsed(m0, e.v) <= LastUsed(m0, w) {
      StillEligible(m0, m, s, vs, e.r, e.now, w);
    }
  }

  lemma SoloMore(m0: Shared, s: Service, start: int, evictions: seq<Victim>, e: Victim)
    requires Solo(m0, s, start, evictions) && SoloPick(m0, s, start, e, Names(evictions))
    ensures Solo(m0, s, start, evictions + [e])
  {
    hide SoloPick;
    var more := evictions + [e];
    forall j | 0 <= j < |more| ensures SoloPick(m0, s, start, more[j], Names(more[..j])) {
      assert more[..j] == evictions[..j];
      assert j == |evictions| ==> evictions[..j] == evictions;
    }
  }

  lemma SoloEvicts(me: nat, m0: Shared, m: Shared, s: Service, b: nat, start: int, evictions: seq<Victim>, e: Victim)
    requires SoloSoFar(m0, m, s, start, evictions)
    requires e.at == e.found == m.(first := e.at.first) && start <= e.now && e.recheck && Justified(s, e)
    requires Before(me, e.at, Starting(s, b, Lacking(e.r)))
    ensures b < |e.at.instances| && e.v in e.at.running && e.at.running[e.v] < |e.at.instances|
    ensures SoloSoFar(m0, Stopped(e.at, e.v, b, me), s, start, evictions + [e])
  {
    assert PassLacks(e.at, s, true, e.r) && IsVictim(e.at, s, e.r, e.now, e.v);
    assert Thinned(m0, e.at, s, Names(evictions)) && Solo(m0, s, start, evictions);
    hide Thinned, Solo, SoloPick, PassLacks, IsVictim, Eligible, Before, Justified, Stopped, SharedOk;
    SoloChoice(m0, e.at, s, start, Names(evictions), e);
    VictimFacts(e.at, s, e.r, e.now, e.v, me);
    BeforeShared(me, e.at, Starting(s, b, Lacking(e.r)));
    OwnFacts(me, e.at, s, b, Lacking(e.r));
    StopThins(me, m0, e.at, s, b, Names(evictions), e.v);
    NamesMore(evictions, e);
    SoloMore(m0, s, start, evictions, e);
  }

  lemma NamesMore(evictions: seq<Victim>, e: Victim)
    ensures Names(evictions + [e]) == Names(evictions) + [e.v]
  {
  }

  lemma StopThins(me: nat, m0: Shared, m: Shared, s: Service, b: nat, vs: seq<Service>, v: Service)
    requires Thinned(m0, m, s, vs) && SharedOk(m) && b < |m.instances| && m.instances[b].svc == s
    requires v in m.running && v != s && m.running[v] < |m.instances| && m.instances[m.running[v]].holder.None?
    ensures Thinned(m0, Stopped(m, v, b, me), s, vs + [v])
  {
    hide Stopped, SharedOk;
    StopUnregisters(me, m, b, v);
    StopKeeps(me, m, b, v);
    Registered(m, v);
    assert (vs + [v])[..|vs|] == vs;
    var m' := Stopped(m, v, b, me);
    forall r ensures Get(m'.inUse, r) == Get(m0.inUse, r) - Freed(m0.cfg, vs + [v], r) {
      StopFrees(me, m, b, v, r);
    }
    forall w | w in m'.running && w != s && m'.running[w] < |m'.instances|
      ensures m'.instances[m'.running[w]] == m0.instances[m'.running[w]]
    {
      Registered(m, w);
    }
  }

  /** A failed kill only restarts the count of checks. */
  lemma SoloSurvives(m0: Shared, m: Shared, s: Service, b: nat, start: int, evictions: seq<Victim>)
    requires SoloSoFar(m0, m, s, start, evictions) && SharedOk(m) && b < |m.instances| && m.instances[b].svc == s
    ensures SoloSoFar(m0, ResetSince(m, b), s, start, evictions)
  {
    hide SharedOk, Solo, Names;
    var m' := ResetSince(m, b);
    forall w | w in m'.running && w != s && m'.running[w] < |m'.instances|
      ensures m'.instances[m'.running[w]] == m0.instances[m'.running[w]]
    {
      Registered(m, w);
    }
  }

  /** A stop gives the victim's amounts back. */
  lemma StopFrees(me: nat, m: Shared, b: nat, v: Service, r: Resource)
    requires SharedOk(m) && b < |m.instances| && v in m.running && m.running[v] < |m.instances|
    requires m.instances[m.running[v]].holder.None?
    ensures Get(Stopped(m, v, b, me).inUse, r) == Get(m.inUse, r) - m.cfg.Need(v, r)
  {
    Registered(m, v);
    InstanceFacts(m, m.running[v]);
    assert !m.instances[m.running[v]].released;
  }

  lemma StopKeeps(me: nat, m: Shared, b: nat, v: Service)
    requires SharedOk(m) && b < |m.instances| && v in m.running && m.running[v] < |m.instances|
    ensures Stopped(m, v, b, me).cfg == m.cfg && Stopped(m, v, b, me).stats == m.stats
    ensures |Stopped(m, v, b, me).instances| == |m.instances|
    ensures forall k :: 0 <= k < |m.instances| && k != b && k != m.running[v] ==>
              Stopped(m, v, b, me).instances[k] == m.instances[k]
  {
  }

  /** The channels are empty, as they are created. */
  predicate Unanswered(channels: seq<Channel>, pending: map<Resource, nat>) {
    forall r :: r in pending ==> pending[r] < |channels| && channels[pending[r]].value.None?
  }

  /** waitForFirstCheckCommands: one signal from every channel, or the deadline, or a client that
      went away. Every way out drops the registrations. */
  method WaitForFirstCheckCommands(rm: ResourceManager, me: nat, s: Service, b: nat, pending: map<Resource, nat>,
                                   ghost limit: nat, ghost alone: bool)
    returns (ok: bool)
    requires At(rm, me, Starting(s, b, Pending(pending, pending.Keys))) && pending != map[]
    requires Unanswered(rm.channels, pending)
    modifies rm
    ensures At(rm, me, Starting(s, b, if ok then Pass(false) else Refused))
    ensures Evolves(old(rm.Value()), rm.Value(), limit) && (alone ==> !ok)
    ensures alone ==> rm.resourcesReserved == old(rm.resourcesReserved) && rm.runningServices == old(rm.runningServices)
  {
    hide Before, Accounted, Evolves;
    ghost var m := rm.Value();
    EvolvesSame(m, m, limit);
    var todo := pending.Keys;
    ok := true;
    while todo != {} && ok
      invariant todo <= pending.Keys
      invariant At(rm, me, Starting(s, b, Pending(pending, todo)))
      invariant Evolves(m, rm.Value(), limit)
      invariant alone ==> rm.Value() == m && (ok ==> todo == pending.Keys)
      decreases todo, ok
    {
      var r :| r in todo;
      ghost var m1 := rm.Value();
      ok := AwaitCheck(rm, me, s, b, pending, todo, r, limit, alone);
      EvolvesTrans(m, m1, rm.Value(), limit);
      if ok {
        todo := todo - {r};
      }
    }
    ghost var m2 := rm.Value();
    FinishPending(me, m2, s, b, pending, todo, ok);
    rm.DropFirstRegistrations(pending.Keys, s);
    EvolvesSame(m2, rm.Value(), limit);
    EvolvesTrans(m, m2, rm.Value(), limit);
  }

  lemma FinishPending(me: nat, m: Shared, s: Service, b: nat, pending: map<Resource, nat>, todo: set<Resource>,
                      ok: bool)
    requires Before(me, m, Starting(s, b, Pending(pending, todo))) && (ok ==> todo == {})
    ensures Before(me, m.(first := Unregister(m.first, pending.Keys, s)),
                   Starting(s, b, if ok then Pass(false) else Refused))
  {
    hide *;
    PendingLocals(me, m, s, b, pending, todo, ok);
    AfterBefore(me, m, m, Starting(s, b, PendingDone(pending, ok)));
    DropStep(me, m, s, b, pending, ok);
    AfterBefore(me, m, m.(first := Unregister(m.first, pending.Keys, s)),
                Starting(s, b, if ok then Pass(false) else Refused));
  }

  method AwaitCheck(rm: ResourceManager, me: nat, s: Service, b: nat, pending: map<Resource, nat>,
                    todo: set<Resource>, r: Resource, ghost limit: nat, ghost alone: bool)
    returns (ok: bool)
    requires At(rm, me, Starting(s, b, Pending(pending, todo))) && r in todo
    requires alone ==> r in pending && Unanswered(rm.channels, pending)
    modifies rm
    ensures At(rm, me, Starting(s, b, Pending(pending, if ok then todo - {r} else todo)))
    ensures Evolves(old(rm.Value()), rm.Value(), limit) && (alone ==> !ok && rm.Value() == old(rm.Value()))
  {
    hide Before, Accounted, Evolves;
    ghost var m := rm.Value();
    Settle(rm, me, Starting(s, b, Pending(pending, todo)), limit, alone);
    ghost var m1 := rm.Value();
    PendingFacts(me, m1, s, b, pending, todo, r);
    ok := *;
    if !ok || rm.channels[pending[r]].value.None? {
      return false;
    }
    assert Before(me, Take(m1, pending[r]), Starting(s, b, Pending(pending, todo - {r}))) by {
      hide *;
      ReceiveStep(me, m1, s, b, pending, todo, r);
      AfterBefore(me, m1, Take(m1, pending[r]), Starting(s, b, Pending(pending, todo - {r})));
    }
    var _ := rm.Receive(pending[r]);
    EvolvesSame(m1, rm.Value(), limit);
    EvolvesTrans(m, m1, rm.Value(), limit);
  }

  lemma PendingFacts(me: nat, m: Shared, s: Service, b: nat, pending: map<Resource, nat>, todo: set<Resource>,
                     r: Resource)
    requires Before(me, m, Starting(s, b, Pending(pending, todo))) && r in todo
    ensures r in pending && pending[r] < |m.channels|
  {
  }

  /** The other goroutines move before the next critical section. */
  method Settle(rm: ResourceManager, me: nat, pc: Pc, ghost limit: nat, ghost alone: bool)
    requires At(rm, me, pc)
    modifies rm
    ensures At(rm, me, pc) && Evolves(old(rm.Value()), rm.Value(), limit)
    ensures alone ==> rm.Value() == old(rm.Value())
  {
    hide Before, Accounted, Evolves, Grows;
    Others(rm, me, limit, alone);
  }

  /** The registration, the select and the deregistration of a wait for a change of `r`. The loop waits
      only where nobody who uses `r` can be stopped. */
  method AwaitChange(rm: ResourceManager, me: nat, s: Service, b: nat, ghost w: Wait, r: Resource, deadline: bool,
                     ghost limit: nat, ghost alone: bool)
    returns (signal: Option<bool>)
    requires At(rm, me, Starting(s, b, Parking(r)))
    requires w.at == rm.Value() && w.r == r && Exhausted(s, w)
    modifies rm
    ensures At(rm, me, Starting(s, b, if signal.Some? then Pass(signal.value) else Refused))
    ensures Evolves(old(rm.Value()), rm.Value(), limit)
    ensures alone || deadline ==> signal.None?
    ensures alone ==> rm.resourcesReserved == old(rm.resourcesReserved) && rm.runningServices == old(rm.runningServices)
  {
    hide Before, Accounted, Enlist, Exhausted, At, Evolves;
    ghost var m := rm.Value();
    Settle(rm, me, Starting(s, b, Parking(r)), limit, alone);
    ghost var m1 := rm.Value();
    signal := RegisterAndSelect(rm, me, s, b, r, deadline, limit, alone);
    EvolvesTrans(m, m1, rm.Value(), limit);
  }

  method RegisterAndSelect(rm: ResourceManager, me: nat, s: Service, b: nat, r: Resource, deadline: bool,
                           ghost limit: nat, ghost alone: bool)
    returns (signal: Option<bool>)
    requires At(rm, me, Starting(s, b, Parking(r)))
    modifies rm
    ensures At(rm, me, if signal.Some? then Starting(s, b, Pass(signal.value)) else Starting(s, b, Refused))
    ensures Evolves(old(rm.Value()), rm.Value(), limit)
    ensures alone || deadline ==> signal.None?
    ensures alone ==> rm.resourcesReserved == old(rm.resourcesReserved) && rm.runningServices == old(rm.runningServices)
  {
    hide Before, Accounted, Enlist, Evolves;
    ghost var m := rm.Value();
    EnlistFacts(me, m, s, b, r);
    var ch := rm.RegisterForChange(r, s);
    ghost var m1 := rm.Value();
    EvolvesSame(m, m1, limit);
    signal := Select(rm, me, s, b, r, ch, deadline, limit, alone);
    ghost var m2 := rm.Value();
    Leaves(me, m2, s, b, r, signal);
    rm.DropChangeRegistrations({r}, s);
    EvolvesSame(m2, rm.Value(), limit);
    EvolvesTrans(m, m1, m2, limit);
    EvolvesTrans(m, m2, rm.Value(), limit);
  }

  lemma EnlistFacts(me: nat, m: Shared, s: Service, b: nat, r: Resource)
    requires Before(me, m, Starting(s, b, Parking(r)))
    ensures Before(me, Enlist(m, r, s), Starting(s, b, Waiting(r, |m.channels|)))
    ensures Enlist(m, r, s).running == m.running && Enlist(m, r, s).instances == m.instances
    ensures Enlist(m, r, s).cfg == m.cfg && Enlist(m, r, s).inUse == m.inUse && Enlist(m, r, s).reserved == m.reserved
    ensures |Enlist(m, r, s).channels| == |m.channels| + 1 && Enlist(m, r, s).channels[|m.channels|].value.None?
  {
    EnlistStep(me, m, s, b, r);
    AfterBefore(me, m, Enlist(m, r, s), Starting(s, b, Waiting(r, |m.channels|)));
    hide Before, Accounted, After;
  }

  lemma Leaves(me: nat, m: Shared, s: Service, b: nat, r: Resource, signal: Option<bool>)
    requires Before(me, m, Starting(s, b, Leaving(r, signal)))
    ensures Before(me, m.(change := Unregister(m.change, {r}, s)),
                   Starting(s, b, if signal.Some? then Pass(signal.value) else Refused))
  {
    hide *;
    LeaveStep(me, m, s, b, r, signal);
    AfterBefore(me, m, m.(change := Unregister(m.change, {r}, s)),
                Starting(s, b, if signal.Some? then Pass(signal.value) else Refused));
  }

  /** The select: a signal, or the deadline, or a client that went away. */
  method Select(rm: ResourceManager, me: nat, s: Service, b: nat, r: Resource, ch: nat, deadline: bool,
                ghost limit: nat, ghost alone: bool)
    returns (signal: Option<bool>)
    requires At(rm, me, Starting(s, b, Waiting(r, ch)))
    requires ch < |rm.channels| && rm.channels[ch].value.None?
    modifies rm
    ensures At(rm, me, Starting(s, b, Leaving(r, signal)))
    ensures Evolves(old(rm.Value()), rm.Value(), limit)
    ensures alone || deadline ==> signal.None?
    ensures alone ==> rm.resourcesReserved == old(rm.resourcesReserved) && rm.runningServices == old(rm.runningServices)
  {
    hide Before, Accounted, Evolves;
    ghost var m := rm.Value();
    Settle(rm, me, Starting(s, b, Waiting(r, ch)), limit, alone);
    ghost var m1 := rm.Value();
    Wakes(me, m1, s, b, r, ch);
    var abort: bool := *;
    if deadline || abort || rm.channels[ch].value.None? {
      return None;
    }
    var v := rm.Receive(ch);
    signal := Some(v);
    EvolvesSame(m1, rm.Value(), limit);
    EvolvesTrans(m, m1, rm.Value(), limit);
  }

  lemma Wakes(me: nat, m: Shared, s: Service, b: nat, r: Resource, ch: nat)
    requires Before(me, m, Starting(s, b, Waiting(r, ch)))
    ensures ch < |m.channels| && Before(me, m, Starting(s, b, Leaving(r, None)))
    ensures m.channels[ch].value.Some? ==> Before(me, Take(m, ch), Starting(s, b, Leaving(r, m.channels[ch].value)))
  {
    hide SharedOk, Guar;
    AbandonStep(me, m, s, b, r, ch);
    if m.channels[ch].value.Some? {
      WakeStep(me, m, s, b, r, ch);
    }
  }

  // ---------------------------------------------------------------- the loop

  /** One hold of the serviceMutex: the shortage check, and the commit when nothing is missing. */
  method TryReserve(rm: ResourceManager, me: nat, s: Service, b: nat, recheck: bool)
    returns (missing: Option<Resource>, pending: map<Resource, nat>)
    requires At(rm, me, Starting(s, b, Pass(recheck)))
    modifies rm
    ensures Before(me, old(rm.Value()), Starting(s, b, Pass(recheck)))
    ensures missing.Some? ==>
              && At(rm, me, Starting(s, b, Lacking(missing.value))) && PassLacks(rm.Value(), s, recheck, missing.value)
              && rm.Value() == old(rm.Value()).(first := rm.firstChans)
    ensures missing.None? && pending != map[] ==>
              && At(rm, me, Starting(s, b, Pending(pending, pending.Keys)))
              && recheck && PassAsks(old(rm.Value()), s, recheck) && Unanswered(rm.channels, pending)
              && rm.runningServices == old(rm.runningServices) && rm.resourcesReserved == old(rm.resourcesReserved)
              && rm.instances == old(rm.instances)
    ensures missing.None? && pending == map[] ==>
              && At(rm, me, Starting(s, b, Reserved)) && PassCommits(old(rm.Value()), s, recheck)
              && b < |old(rm.Value()).instances| && rm.Value() == Commit(old(rm.Value()), b)
  {
    hide Before, Accounted, PassLacks, PassAsks, PassCommits, Commit, FreshChannels, Asked;
    ghost var m := rm.Value();
    OwnFacts(me, m, s, b, Pass(recheck));
    missing, pending := rm.FindFirstMissingResource(s, recheck);
    if missing.Some? {
      Lacks(me, m, s, b, recheck, missing.value);
    } else if pending != map[] {
      Asks(me, m, s, b, recheck, pending, rm.Value());
    } else {
      Commits(me, m, s, b, recheck);
      CommitAccounted(m, b);
      rm.CommitReservation(b);
    }
  }

  lemma Lacks(me: nat, m: Shared, s: Service, b: nat, recheck: bool, r: Resource)
    requires Before(me, m, Starting(s, b, Pass(recheck))) && PassLacks(m, s, recheck, r)
    ensures Before(me, m.(first := Unregister(m.first, m.first.Keys, s)), Starting(s, b, Lacking(r)))
    ensures PassLacks(m.(first := Unregister(m.first, m.first.Keys, s)), s, recheck, r)
  {
    assert PassLacks(m.(first := Unregister(m.first, m.first.Keys, s)), s, recheck, r) by {
      var m' := m.(first := Unregister(m.first, m.first.Keys, s));
      assert forall p :: StaticShort(m', s, p) == StaticShort(m, s, p);
    }
    hide *;
    LackStep(me, m, s, b, recheck, r);
    AfterBefore(me, m, m.(first := Unregister(m.first, m.first.Keys, s)), Starting(s, b, Lacking(r)));
  }

  lemma Asks(me: nat, m: Shared, s: Service, b: nat, recheck: bool, pending: map<Resource, nat>, m': Shared)
    requires Before(me, m, Starting(s, b, Pass(recheck)))
    requires FreshChannels(m, s, pending) && Asked(m, s, pending, m')
    ensures Before(me, m', Starting(s, b, Pending(pending, pending.Keys)))
    ensures m'.running == m.running && m'.reserved == m.reserved
    ensures m'.cfg == m.cfg && m'.inUse == m.inUse && m'.instances == m.instances
    ensures Unanswered(m'.channels, pending)
  {
    assert Unanswered(m'.channels, pending);
    hide FreshChannels;
    assert m' == m.(first := m'.first, channels := m'.channels);
    hide *;
    AskStep(me, m, s, b, recheck, pending, m');
    AfterBefore(me, m, m', Starting(s, b, Pending(pending, pending.Keys)));
  }

  lemma Commits(me: nat, m: Shared, s: Service, b: nat, recheck: bool)
    requires Before(me, m, Starting(s, b, Pass(recheck))) && b < |m.instances|
    ensures Before(me, Commit(m, b), Starting(s, b, Reserved))
  {
    hide *;
    CommitStep(me, m, s, b, recheck);
    AfterBefore(me, m, Commit(m, b), Starting(s, b, Reserved));
  }

  /** An eviction: the selection was made, the stop follows. */
  method Evict(rm: ResourceManager, me: nat, s: Service, b: nat, r: Resource, ghost now: int, v: Service,
               patience: nat, mayFail: bool, ghost limit: nat, ghost alone: bool)
    returns (stop: Stop, ghost i: nat)
    requires At(rm, me, Starting(s, b, Lacking(r))) && IsVictim(rm.Value(), s, r, now, v)
    modifies rm
    ensures At(rm, me, if stop.Blocked? then StopWait(v, i, AfterEvict(s, b)) else Starting(s, b, Pass(true)))
    ensures stop.KillFailed? ==> mayFail
    ensures Evolves(old(rm.Value()), rm.Value(), limit)
    ensures stop.Missing? || stop.CleanedUp? ==> AllReleased(old(rm.Value()), rm.Value(), v)
    ensures (stop.Missing? || stop.CleanedUp?) && v in rm.runningServices ==>
              |old(rm.instances)| <= rm.runningServices[v]
    ensures alone ==> !stop.Blocked? && rm.resourcesReserved == old(rm.resourcesReserved)
    ensures b < |old(rm.instances)| && old(v in rm.runningServices && rm.runningServices[v] < |rm.instances|)
    ensures alone && !stop.KillFailed? ==>
              rm.Value() == Stopped(old(rm.Value()), v, b, me) && rm.runningServices == old(rm.runningServices) - {v}
    ensures alone && stop.KillFailed? ==>
              rm.Value() == ResetSince(old(rm.Value()), b) && rm.runningServices == old(rm.runningServices)
  {
    hide Before, Accounted, IsVictim, Killed, Eligible, Undisturbed, Grows, Renews, Evolves, AllReleased;
    ghost var m := rm.Value();
    VictimFacts(m, s, r, now, v, me);
    OwnFacts(me, m, s, b, Lacking(r));
    assert Before(me, m, StopLookup(v, AfterEvict(s, b)))
           && ResumePc(AfterEvict(s, b)) == Starting(s, b, Pass(true)) by {
      VictimFacts(m, s, r, now, v, me);
      hide Before, After, Eligible, IsVictim;
      PickStep(me, m, s, b, r, v, now);
      AfterBefore(me, m, m, StopLookup(v, AfterEvict(s, b)));
    }
    BeforeShared(me, m, Starting(s, b, Lacking(r)));
    StopUnregisters(me, m, b, v);
    Others(rm, me, limit, alone);
    ghost var m1 := rm.Value();
    stop, i := StopService(rm, me, v, AfterEvict(s, b), patience, mayFail, limit, alone);
    EvolvesTrans(m, m1, rm.Value(), limit);
    if stop.Missing? || stop.CleanedUp? {
      ReleasedSince(m, m1, rm.Value(), v, limit);
    }
  }

  lemma ReleasedSince(m: Shared, m1: Shared, m2: Shared, v: Service, limit: nat)
    requires Evolves(m, m1, limit) && AllReleased(m1, m2, v)
    ensures AllReleased(m, m2, v) && |m.instances| <= |m1.instances|
  {
    forall b | 0 <= b < |m.instances| && m.instances[b].svc == v
      ensures b < |m2.instances| && m2.instances[b].released
    {
      assert Ages(m.instances[b], m1.instances[b]);
    }
  }

  /** The victim of the loop, or nothing when it has to wait. */
  method ChooseVictim(rm: ResourceManager, me: nat, s: Service, b: nat, r: Resource, now: int, ghost limit: nat,
                      ghost alone: bool)
    returns (victim: Option<Service>)
    requires At(rm, me, Starting(s, b, Lacking(r)))
    modifies rm
    ensures Evolves(old(rm.Value()), rm.Value(), limit)
    ensures alone ==> rm.Value() == old(rm.Value())
    ensures victim.Some? ==> Before(me, rm.Value(), Starting(s, b, Lacking(r)))
    ensures victim.Some? ==> At(rm, me, Starting(s, b, Lacking(r))) && IsVictim(rm.Value(), s, r, now, victim.value)
                             && victim.value in rm.runningServices
    ensures victim.None? ==> At(rm, me, Starting(s, b, Parking(r))) && forall v :: !Eligible(rm.Value(), s, r, now, v)
  {
    hide Before, Accounted, Eligible, Evolves;
    Settle(rm, me, Starting(s, b, Lacking(r)), limit, alone);
    victim := rm.FindEarliestLastUsed(s, r, now, me);
    assert Before(me, rm.Value(), Starting(s, b, Parking(r))) by {
      hide *;
      NoVictimStep(me, rm.Value(), s, b, r);
      AfterBefore(me, rm.Value(), rm.Value(), Starting(s, b, Parking(r)));
    }
    if victim.Some? {
      VictimFacts(rm.Value(), s, r, now, victim.value, me);
    }
  }

  ghost predicate AllJustified(s: Service, evictions: seq<Victim>, waits: seq<Wait>) {
    && (forall i :: 0 <= i < |evictions| ==> Justified(s, evictions[i]))
    && forall i :: 0 <= i < |waits| ==> Exhausted(s, waits[i])
  }

  lemma JustifyMore(s: Service, evictions: seq<Victim>, waits: seq<Wait>, e: Victim)
    requires AllJustified(s, evictions, waits) && Justified(s, e)
    ensures AllJustified(s, evictions + [e], waits)
  {
    hide Justified, Exhausted;
  }

  lemma NobodyToEvict(s: Service, w: Wait)
    requires PassLacks(w.found, s, w.recheck, w.r) && forall v :: !Eligible(w.at, s, w.r, w.now, v)
    ensures Exhausted(s, w)
  {
  }

  lemma CommitRunning(m: Shared, b: nat)
    requires b < |m.instances|
    ensures Commit(m, b).running == m.running && |Commit(m, b).instances| == |m.instances|
  {
  }

  /** A service without requirements reserves nothing, without asking. The assignment is history. */
  method ReserveNothing(rm: ResourceManager, me: nat, s: Service, b: nat)
    requires At(rm, me, Starting(s, b, Pass(true))) && rm.cfg.Requirement(s) == map[]
    modifies rm
    ensures At(rm, me, Starting(s, b, Reserved)) && PassCommits(old(rm.Value()), s, true)
    ensures Before(me, old(rm.Value()), Starting(s, b, Pass(true)))
    ensures b < |old(rm.instances)| && rm.Value() == Commit(old(rm.Value()), b)
            && rm.runningServices == old(rm.runningServices)
  {
    hide Before, Accounted;
    ghost var m := rm.Value();
    OwnFacts(me, m, s, b, Pass(true));
    Commits(me, m, s, b, true);
    CommitAccounted(m, b);
    NothingCommitted(m, b);
    rm.instances := rm.instances[b := rm.instances[b].(committed := true)];
  }

  lemma NothingCommitted(m: Shared, b: nat)
    requires b < |m.instances| && m.cfg.Requirement(m.instances[b].svc) == map[]
    ensures Commit(m, b) == SetInstance(m, b, m.instances[b].(committed := true))
    ensures PassCommits(m, m.instances[b].svc, true)
  {
    assert Unregister(m.change, {}, m.instances[b].svc) == m.change;
    assert Plus(m.inUse, map[]) == m.inUse && Plus(m.reserved, map[]) == m.reserved;
  }

  /** What comes of a resource that is missing: a victim was removed, its kill failed, the stop still
      waits for its manageMutex, or the loop waited and was woken or not. */
  datatype Turn = Removed | Survived | Stalled | Woken(signal: bool) | GaveUp

  function TurnPc(turn: Turn, s: Service, b: nat, v: Service, i: nat): Pc {
    match turn
    case Removed => Starting(s, b, Pass(true))
    case Survived => Starting(s, b, Pass(true))
    case Stalled => StopWait(v, i, AfterEvict(s, b))
    case Woken(signal) => Starting(s, b, Pass(signal))
    case GaveUp => Starting(s, b, Refused)
  }

  /** Choose a victim and stop it, or wait. `e` is the choice, `w` the wait. */
  method Pursue(rm: ResourceManager, me: nat, s: Service, b: nat, recheck: bool, r: Resource, start: int,
                patience: nat, mayFail: bool, deadline: bool, ghost limit: nat, ghost alone: bool)
    returns (turn: Turn, ghost e: Victim, ghost w: Wait, ghost i: nat)
    requires At(rm, me, Starting(s, b, Lacking(r))) && PassLacks(rm.Value(), s, recheck, r)
    modifies rm
    ensures At(rm, me, TurnPc(turn, s, b, e.v, i))
    ensures Evolves(old(rm.Value()), rm.Value(), limit)
    ensures turn.Survived? ==> mayFail
    ensures turn.Removed? || turn.Survived? || turn.Stalled? ==>
              && Justified(s, e) && e.found == old(rm.Value()) && e.recheck == recheck
              && e.r == r && start <= e.now && Before(me, e.at, Starting(s, b, Lacking(r)))
              && Evolves(old(rm.Value()), e.at, limit) && Evolves(e.at, rm.Value(), limit)
              && (alone ==> e.at == old(rm.Value()))
    ensures turn.Removed? ==>
              && e.v in e.at.running && AllReleased(e.at, rm.Value(), e.v)
              && (e.v in rm.runningServices ==> |e.at.instances| <= rm.runningServices[e.v])
    ensures turn.Woken? || turn.GaveUp? ==>
              && Exhausted(s, w) && w.found == old(rm.Value()) && w.recheck == recheck && start <= w.now
              && (alone ==> w.at == old(rm.Value()))
    ensures turn.GaveUp? ==> w.r == r && Evolves(w.found, w.at, limit) && Evolves(w.at, rm.Value(), limit)
    ensures turn.Woken? ==> !deadline && !alone
    ensures alone ==> !turn.Stalled? && rm.resourcesReserved == old(rm.resourcesReserved)
    ensures alone && (turn.Survived? || turn.GaveUp?) ==> rm.runningServices == old(rm.runningServices)
    ensures alone && turn.Removed? ==> rm.runningServices == old(rm.runningServices) - {e.v}
    ensures alone && turn.Removed? ==>
              && b < |e.at.instances| && e.v in e.at.running && e.at.running[e.v] < |e.at.instances|
              && rm.Value() == Stopped(e.at, e.v, b, me)
    ensures alone && turn.Survived? ==> b < |e.at.instances| && rm.Value() == ResetSince(e.at, b)
  {
    hide Before, Accounted, PassLacks, Eligible, IsVictim, Exhausted, Justified, At, Evolves, AllReleased, Stopped,
         ResetSince;
    ghost var found := rm.Value();
    i := 0;
    var now := Clock(start);
    var victim := ChooseVictim(rm, me, s, b, r, now, limit, alone);
    w := Wait(found, rm.Value(), recheck, r, now);
    if victim.Some? {
      e := Victim(found, rm.Value(), recheck, r, now, victim.value);
      IsJustified(s, e);
      var stop: Stop;
      stop, i := Evict(rm, me, s, b, r, now, victim.value, patience, mayFail, limit, alone);
      turn := match stop case Blocked => Stalled case KillFailed => Survived case _ => Removed;
      EvolvesTrans(found, e.at, rm.Value(), limit);
    } else {
      e := Victim(found, rm.Value(), recheck, r, now, s);
      NobodyToEvict(s, w);
      var signal := AwaitChange(rm, me, s, b, w, r, deadline, limit, alone);
      turn := if signal.Some? then Woken(signal.value) else GaveUp;
      EvolvesTrans(found, w.at, rm.Value(), limit);
    }
  }

  lemma IsJustified(s: Service, e: Victim)
    requires PassLacks(e.found, s, e.recheck, e.r) && IsVictim(e.at, s, e.r, e.now, e.v)
    ensures Justified(s, e)
  {
    hide PassLacks;
    assert Eligible(e.at, s, e.r, e.now, e.v);
  }

  /** What the loop has done: evictions, evictions whose kill failed, and waits. */
  datatype Log = Log(evictions: seq<Victim>, failed: seq<Victim>, waits: seq<Wait>)

  /** The log is justified, and says what became of `m0`. */
  ghost predicate Sound(m0: Shared, m: Shared, s: Service, alone: bool, log: Log) {
    && AllJustified(s, log.evictions, log.waits) && AllJustified(s, log.failed, [])
    && Evicted(m0, m, log.evictions)
    && (alone ==> m.reserved == m0.reserved && m.running == m0.running - Gone(log.evictions))
  }

  lemma SoundStart(m0: Shared, s: Service, alone: bool)
    ensures Sound(m0, m0, s, alone, Log([], [], []))
  {
    assert m0.running - Gone([]) == m0.running;
    hide AllJustified, Evicted, Gone;
  }

  /** The other goroutines moved. */
  lemma SoundMoves(m0: Shared, m: Shared, m': Shared, s: Service, alone: bool, log: Log)
    requires Sound(m0, m, s, alone, log) && Grows(m, m') && Renews(m, m') && SharedOk(m')
    requires alone ==> m'.reserved == m.reserved && m'.running == m.running
    ensures Sound(m0, m', s, alone, log)
  {
    hide AllJustified, Evicted, Gone, Grows, Renews, SharedOk;
    EvictedStays(m0, m, log.evictions, m');
  }

  lemma SoundRemoved(m0: Shared, m: Shared, m': Shared, s: Service, alone: bool, log: Log, e: Victim)
    requires Sound(m0, m, s, alone, log) && Justified(s, e)
    requires Grows(m, e.at) && Renews(m, e.at) && SharedOk(e.at)
    requires Grows(e.at, m') && Renews(e.at, m') && SharedOk(m')
    requires e.v in e.at.running && AllReleased(e.at, m', e.v)
    requires e.v in m'.running ==> |e.at.instances| <= m'.running[e.v]
    requires alone ==> m'.reserved == m.reserved && m'.running == m.running - {e.v}
    ensures Sound(m0, m', s, alone, log.(evictions := log.evictions + [e]))
  {
    hide AllJustified, Justified, Evicted, Gone, Grows, Renews, SharedOk, AllReleased;
    JustifyMore(s, log.evictions, log.waits, e);
    EvictedOne(m0, m, log.evictions, e, m');
    GoneMore(m0.running, log.evictions, e);
  }

  lemma SoundSurvived(m0: Shared, m: Shared, s: Service, alone: bool, log: Log, e: Victim)
    requires Sound(m0, m, s, alone, log) && Justified(s, e)
    ensures Sound(m0, m, s, alone, log.(failed := log.failed + [e]))
  {
    hide AllJustified, Justified, Evicted, Gone;
    JustifyMore(s, log.failed, [], e);
  }

  lemma SoundWaited(m0: Shared, m: Shared, s: Service, alone: bool, log: Log, w: Wait)
    requires Sound(m0, m, s, alone, log) && Exhausted(s, w)
    ensures Sound(m0, m, s, alone, log.(waits := log.waits + [w]))
  {
    assert AllJustified(s, log.evictions, log.waits + [w]);
    hide AllJustified, Exhausted, Evicted, Gone;
  }

  lemma SoundEnds(m0: Shared, m: Shared, s: Service, alone: bool, log: Log)
    requires Sound(m0, m, s, alone, log)
    ensures |log.evictions| + |m.running.Keys| + |m0.instances| <= |m0.running.Keys| + |m.instances|
  {
    hide AllJustified, Gone;
  }

  // ---------------------------------------------------------------- how it ends

  /** How a reservation ends: reserved, refused, or still waiting for a victim's manageMutex. */
  datatype Answer = Granted | Denied | Hanging

  /** Why a reservation is refused: its last wait brought no signal, or the monitors did not answer the pass that
      asked them in `m`. */
  datatype Refusal = NobodyLeft(w: Wait) | NoAnswer(m: Shared)

  /** What a service may still reserve of `r`. */
  function Left(m: Shared, r: Resource): int {
    if r in m.cfg.check then Get(m.available, r) - Get(m.reserved, r) else Get(m.cfg.amount, r) - Get(m.inUse, r)
  }

  /** The reservation that began in `m0` may be refused in `m`: a required resource did not suffice and then nobody
      could be stopped, or what is not measured sufficed and there is something to measure. */
  ghost predicate Grounds(m0: Shared, m: Shared, s: Service, start: int, limit: nat, why: Refusal) {
    match why
    case NobodyLeft(w) =>
      && w.r in w.found.cfg.Requirement(s) && w.found.cfg.Need(s, w.r) > Left(w.found, w.r) && start <= w.now
      && (w.r in w.found.cfg.check ==> !w.recheck) && (forall v :: !Eligible(w.at, s, w.r, w.now, v))
      && Evolves(m0, w.found, limit) && Evolves(w.found, w.at, limit) && Evolves(w.at, m, limit)
    case NoAnswer(m1) =>
      && (forall r :: r in m1.cfg.Requirement(s) && r !in m1.cfg.check ==> m1.cfg.Need(s, r) <= Left(m1, r))
      && (exists r :: r in m1.cfg.Requirement(s) && r in m1.cfg.check)
      && Evolves(m0, m1, limit) && Evolves(m1, m, limit)
  }

  lemma NobodyLeftGrounds(m0: Shared, m: Shared, s: Service, start: int, limit: nat, w: Wait)
    requires Exhausted(s, w) && start <= w.now
    requires Evolves(m0, w.found, limit) && Evolves(w.found, w.at, limit) && Evolves(w.at, m, limit)
    ensures Grounds(m0, m, s, start, limit, NobodyLeft(w))
  {
    hide Evolves, Eligible;
  }

  lemma NoAnswerGrounds(m0: Shared, m: Shared, s: Service, start: int, limit: nat, m1: Shared)
    requires PassAsks(m1, s, true) && Evolves(m0, m1, limit) && Evolves(m1, m, limit)
    ensures Grounds(m0, m, s, start, limit, NoAnswer(m1))
  {
    hide Evolves;
    forall r | r in m1.cfg.Requirement(s) && r !in m1.cfg.check ensures m1.cfg.Need(s, r) <= Left(m1, r) {
      assert !StaticShort(m1, s, r);
    }
    var r :| r in m1.cfg.Measured(s);
    assert r in m1.cfg.Requirement(s) && r in m1.cfg.check;
  }

  /** Alone, a wait comes when all who use the resource and could be stopped at first are gone, and it still does not
      suffice. */
  ghost predicate SoloStuck(m0: Shared, s: Service, start: int, vs: seq<Service>, w: Wait) {
    && start <= w.now && w.r in m0.cfg.Requirement(s) && w.r !in m0.cfg.check && !Fits(m0, s, w.r, vs)
    && forall v :: Eligible(m0, s, w.r, w.now, v) ==> v in vs
  }

  /** How a reservation that runs alone ends: with all it requires once the evicted ones are gone, and nothing to
      measure; or for want of a measurement; or stuck. */
  ghost predicate SoloEnd(m0: Shared, s: Service, start: int, evictions: seq<Victim>, granted: bool, why: Refusal) {
    && Solo(m0, s, start, evictions)
    && if granted then m0.cfg.Measured(s) == {} && AllFit(m0, s, Names(evictions))
       else if AllFit(m0, s, Names(evictions)) then m0.cfg.Measured(s) != {}
       else why.NobodyLeft? && SoloStuck(m0, s, start, Names(evictions), why.w)
  }

  lemma SoloFirst(m0: Shared, s: Service, start: int, evictions: seq<Victim>)
    requires Solo(m0, s, start, evictions)
    ensures evictions != [] ==> evictions[0].r in m0.cfg.Requirement(s) && !Fits(m0, s, evictions[0].r, [])
  {
    if evictions != [] {
      assert Names(evictions[..0]) == [];
      assert SoloPick(m0, s, start, evictions[0], Names(evictions[..0]));
    }
  }

  /** Alone, with everything unmeasured and enough left of all, nothing stands in the way. */
  lemma SoloUnhindered(m0: Shared, s: Service, start: int, evictions: seq<Victim>, granted: bool, why: Refusal)
    requires SoloEnd(m0, s, start, evictions, granted, why)
    requires forall r :: r in m0.cfg.Requirement(s) ==> r !in m0.cfg.check && m0.cfg.Need(s, r) <= Left(m0, r)
    ensures granted && evictions == []
  {
    assert forall r :: r in m0.cfg.Requirement(s) ==> Fits(m0, s, r, []);
    assert Names([]) == [] && m0.cfg.Measured(s) == {};
    SoloFirst(m0, s, start, evictions);
  }

  /** And if at first everything suffices and nothing is measured, nobody is evicted and the answer is yes. */
  ghost predicate Alone(alone: bool, m0: Shared, s: Service, start: int, evictions: seq<Victim>, granted: bool,
                        why: Refusal) {
    alone ==>
      && SoloEnd(m0, s, start, evictions, granted, why)
      && ((forall r :: r in m0.cfg.Requirement(s) ==> r !in m0.cfg.check && m0.cfg.Need(s, r) <= Left(m0, r)) ==>
            granted && evictions == [])
  }

  lemma SoloEnds(m0: Shared, s: Service, start: int, evictions: seq<Victim>, granted: bool, why: Refusal)
    requires SoloEnd(m0, s, start, evictions, granted, why)
    ensures Alone(true, m0, s, start, evictions, granted, why)
  {
    hide SoloEnd, Left;
    if forall r :: r in m0.cfg.Requirement(s) ==> r !in m0.cfg.check && m0.cfg.Need(s, r) <= Left(m0, r) {
      SoloUnhindered(m0, s, start, evictions, granted, why);
    }
  }

  lemma SoloGranted(alone: bool, m0: Shared, m: Shared, s: Service, start: int, evictions: seq<Victim>, why: Refusal)
    requires alone ==> SoloSoFar(m0, m, s, start, evictions) && PassCommits(m, s, true)
    ensures Alone(alone, m0, s, start, evictions, true, why)
  {
    if alone {
      StillEnough(m0, m, s, Names(evictions));
      hide Names, Solo, AllFit, StaticEnough, Alone;
      SoloEnds(m0, s, start, evictions, true, why);
    }
  }

  lemma SoloStops(alone: bool, m0: Shared, m: Shared, s: Service, start: int, evictions: seq<Victim>, w: Wait)
    requires Exhausted(s, w) && start <= w.now
    requires alone ==>
               SoloSoFar(m0, m, s, start, evictions) && w.at == w.found == m.(first := w.at.first) && w.recheck
    ensures Alone(alone, m0, s, start, evictions, false, NobodyLeft(w))
  {
    if alone {
      var vs := Names(evictions);
      assert Thinned(m0, w.at, s, vs);
      hide Names, Solo, Thinned, Eligible, Fits, Alone;
      StillShort(m0, w.at, s, vs, w.r);
      forall v | Eligible(m0, s, w.r, w.now, v) ensures v in vs {
        StillEligible(m0, w.at, s, vs, w.r, w.now, v);
      }
      SoloEnds(m0, s, start, evictions, false, NobodyLeft(w));
    }
  }

  /** Alone and short of one resource that is not measured: the shortest sufficient prefix of the order. */
  lemma SoloShortest(m0: Shared, s: Service, r: Resource, start: int, evictions: seq<Victim>, granted: bool,
                     why: Refusal)
    requires SoloEnd(m0, s, start, evictions, granted, why) && OneStatic(m0, s, r) && UsedBefore(m0, s, start)
    ensures ShortestPrefix(m0, s, r, start, Names(evictions), granted)
  {
    var vs := Names(evictions);
    assert m0.cfg.Measured(s) == {} && (AllFit(m0, s, vs) <==> Fits(m0, s, r, vs));
    hide Eligible, Fits, ShortestPrefix, AllFit;
    forall j | 0 <= j < |vs|
      ensures Eligible(m0, s, r, start, vs[j]) && vs[j] !in vs[..j] && !Fits(m0, s, r, vs[..j])
      ensures forall w :: Eligible(m0, s, r, start, w) && w !in vs[..j] ==> LastUsed(m0, vs[j]) <= LastUsed(m0, w)
    {
      assert SoloPick(m0, s, start, evictions[j], Names(evictions[..j])) && Names(evictions[..j]) == vs[..j];
      AnyTime(m0, s, r, start, evictions[j].now);
    }
    if !granted {
      AnyTime(m0, s, r, start, why.w.now);
    }
    PrefixIsShortest(m0, s, r, start, vs, granted);
  }

  lemma AnyTime(m: Shared, s: Service, r: Resource, start: int, now: int)
    requires UsedBefore(m, s, start) && start <= now
    ensures forall v :: Eligible(m, s, r, now, v) <==> Eligible(m, s, r, start, v)
  {
  }

  // ---------------------------------------------------------------- the loop itself

  /** The loop. `alone` says that no other goroutine moves. `patience` bounds the wake-ups before the deadline and the
      looks at a mutex, `failures` the kills that may fail, `limit` the births of the services that others start
      meanwhile. `pc` is where it ends, `at` the state that a commit changed, `why` the grounds of a refusal. */
  method ReserveResources(rm: ResourceManager, me: nat, s: Service, b: nat, patience: nat, failures: nat, start: int,
                          ghost limit: nat, ghost alone: bool)
    returns (answer: Answer, ghost log: Log, ghost at: Shared, ghost trusted: bool, ghost pc: Pc, ghost why: Refusal)
    requires At(rm, me, Starting(s, b, Pass(true)))
    modifies rm
    ensures At(rm, me, pc)
    ensures match answer
            case Granted => pc == Starting(s, b, Reserved)
            case Denied => pc == Starting(s, b, Refused)
            case Hanging => pc.StopWait? && pc.k == AfterEvict(s, b)
    ensures answer.Granted? ==> Before(me, at, Starting(s, b, Pass(!trusted))) && PassCommits(at, s, !trusted)
                                && b < |at.instances| && rm.Value() == Commit(at, b)
    ensures answer.Denied? ==> Grounds(old(rm.Value()), rm.Value(), s, start, limit, why)
    ensures Sound(old(rm.Value()), if answer.Granted? then at else rm.Value(), s, alone, log)
    ensures Evolves(old(rm.Value()), if answer.Granted? then at else rm.Value(), limit) && |log.failed| <= failures
    ensures |log.evictions| + |rm.runningServices.Keys| + |old(rm.instances)|
            <= |old(rm.runningServices.Keys)| + |rm.instances|
    ensures !answer.Hanging? ==> Alone(alone, old(rm.Value()), s, start, log.evictions, answer.Granted?, why)
    ensures alone ==> !answer.Hanging?
  {
    hide Before, Accounted, PassLacks, PassAsks, PassCommits, Commit, Eligible, IsVictim, Sound, Stopped, Names,
         Exhausted, Justified, At, Evolves, Room, SharedOk, SoloSoFar, Alone, Grounds;
    log, at, trusted, pc := Log([], [], []), rm.Value(), false, Starting(s, b, Reserved);
    why := NoAnswer(at);
    ghost var m0 := rm.Value();
    SoundStart(m0, s, alone);
    SoloStart(m0, s, start);
    EvolvesSame(m0, m0, limit);
    if rm.cfg.Requirement(s) == map[] {
      ReserveNothing(rm, me, s, b);
      CommitRunning(m0, b);
      SoundEnds(m0, m0, s, alone, log);
      SoloGranted(alone, m0, m0, s, start, [], why);
      return Granted, log, at, trusted, pc, why;
    }
    var recheck := true;
    var budget, kills := patience, failures;
    while true
      invariant At(rm, me, Starting(s, b, Pass(recheck))) && Sound(m0, rm.Value(), s, alone, log)
      invariant alone ==> recheck && SoloSoFar(m0, rm.Value(), s, start, log.evictions)
      invariant |log.failed| + kills == failures && 0 <= kills && Evolves(m0, rm.Value(), limit)
      decreases Room(limit, rm.Value()), kills, budget, |rm.runningServices.Keys|, recheck
    {
      ghost var m := rm.Value();
      Settle(rm, me, Starting(s, b, Pass(recheck)), limit, alone);
      at, trusted := rm.Value(), !recheck;
      Moved(rm, me, Starting(s, b, Pass(recheck)), m0, m, at, limit);
      SoundMoves(m0, m, at, s, alone, log);
      var missing, pending := TryReserve(rm, me, s, b, recheck);
      if missing.None? && pending == map[] {
        CommitRunning(at, b);
        SoundEnds(m0, at, s, alone, log);
        SoloGranted(alone, m0, at, s, start, log.evictions, why);
        return Granted, log, at, trusted, Starting(s, b, Reserved), why;
      }
      if missing.None? {
        var ok := Measure(rm, me, s, b, pending, start, limit, alone, m0, at, log);
        Moved(rm, me, Starting(s, b, if ok then Pass(false) else Refused), m0, at, rm.Value(), limit);
        if !ok {
          return Denied, log, at, trusted, Starting(s, b, Refused), NoAnswer(at);
        }
        recheck := false;
        continue;
      }
      var turn: Turn;
      turn, log, pc, why := Chase(rm, me, s, b, recheck, missing.value, start, patience, kills > 0, budget == 0, limit,
                                  alone, m0, at, log);
      Moved(rm, me, pc, m0, at, rm.Value(), limit);
      match turn {
        case Removed => recheck := true;
        case Survived => kills, recheck := kills - 1, true;
        case Stalled => return Hanging, log, at, trusted, pc, why;
        case Woken(signal) => recheck, budget := signal, budget - 1;
        case GaveUp => return Denied, log, at, trusted, pc, why;
      }
    }
  }

  /** How many more services may be started meanwhile. */
  ghost function Room(limit: nat, m: Shared): nat {
    if |m.instances| < limit then limit - |m.instances| else 0
  }

  /** The measure of the loop does not grow. */
  lemma Moved(rm: ResourceManager, me: nat, pc: Pc, m0: Shared, m: Shared, m': Shared, limit: nat)
    requires At(rm, me, pc) && m' == rm.Value() && Evolves(m0, m, limit) && Evolves(m, m', limit)
    ensures Evolves(m0, m', limit) && SharedOk(m') && Grows(m, m') && Renews(m, m')
    ensures Room(limit, m') < Room(limit, m)
            || (Room(limit, m') == Room(limit, m) && |m'.instances| == |m.instances|
                && |m'.running.Keys| <= |m.running.Keys|)
  {
    BeforeShared(me, m', pc);
    EvolvesTrans(m0, m, m', limit);
    assert Renews(m, m') && Grows(m, m') && |m.instances| <= |m'.instances|;
    hide Before, Grows, Renews, SharedOk;
    Renewed(m, m');
  }

  /** The rest of a round that asks for measurements. `m` is the state of its pass. */
  method Measure(rm: ResourceManager, me: nat, s: Service, b: nat, pending: map<Resource, nat>, ghost start: int,
                 ghost limit: nat, ghost alone: bool, ghost m0: Shared, ghost m: Shared, ghost log: Log)
    returns (ok: bool)
    requires At(rm, me, Starting(s, b, Pending(pending, pending.Keys))) && Sound(m0, m, s, alone, log)
    requires PassAsks(m, s, true) && Evolves(m0, m, limit) && (alone ==> SoloSoFar(m0, m, s, start, log.evictions))
    requires rm.runningServices == m.running && rm.instances == m.instances && rm.resourcesReserved == m.reserved
    requires pending != map[] && Unanswered(rm.channels, pending)
    modifies rm
    ensures At(rm, me, Starting(s, b, if ok then Pass(false) else Refused))
    ensures Sound(m0, rm.Value(), s, alone, log) && Evolves(m, rm.Value(), limit) && (alone ==> !ok)
    ensures !ok ==>
              && Grounds(m0, rm.Value(), s, start, limit, NoAnswer(m))
              && |log.evictions| + |rm.runningServices.Keys| + |m0.instances| <= |m0.running.Keys| + |rm.instances|
              && Alone(alone, m0, s, start, log.evictions, false, NoAnswer(m))
  {
    assert Alone(alone, m0, s, start, log.evictions, false, NoAnswer(m)) by {
      if alone {
        StillEnough(m0, m, s, Names(log.evictions));
        hide Names, Solo, AllFit, StaticEnough, Alone;
        SoloEnds(m0, s, start, log.evictions, false, NoAnswer(m));
      }
    }
    hide Before, Accounted, Sound, At, Evolves, Room, SharedOk, Unanswered, PassAsks, Grounds, SoloSoFar, Alone;
    ghost var m1 := rm.Value();
    EvolvesSame(m, m1, limit);
    EvolvesSame(m, m, limit);
    ok := WaitForFirstCheckCommands(rm, me, s, b, pending, limit, alone);
    EvolvesTrans(m, m1, rm.Value(), limit);
    Moved(rm, me, Starting(s, b, if ok then Pass(false) else Refused), m, m, rm.Value(), limit);
    SoundMoves(m0, m, rm.Value(), s, alone, log);
    SoundEnds(m0, rm.Value(), s, alone, log);
    NoAnswerGrounds(m0, rm.Value(), s, start, limit, m);
  }

  /** The rest of a round in which `r` is missing, entered in the log. `m` is the state of its pass. */
  method Chase(rm: ResourceManager, me: nat, s: Service, b: nat, recheck: bool, r: Resource, start: int,
               patience: nat, mayFail: bool, deadline: bool, ghost limit: nat, ghost alone: bool, ghost m0: Shared,
               ghost m: Shared, ghost before: Log)
    returns (turn: Turn, ghost log: Log, ghost pc: Pc, ghost why: Refusal)
    requires At(rm, me, Starting(s, b, Lacking(r))) && PassLacks(rm.Value(), s, recheck, r)
    requires Sound(m0, m, s, alone, before) && rm.Value() == m.(first := rm.firstChans) && Evolves(m0, m, limit)
    requires alone ==> recheck && SoloSoFar(m0, m, s, start, before.evictions)
    modifies rm
    ensures At(rm, me, pc)
    ensures match turn
            case Woken(signal) => pc == Starting(s, b, Pass(signal)) && !deadline && !alone
            case GaveUp => pc == Starting(s, b, Refused)
            case Stalled => pc.StopWait? && pc.k == AfterEvict(s, b) && !alone
            case _ => pc == Starting(s, b, Pass(true))
    ensures Sound(m0, rm.Value(), s, alone, log) && Evolves(m, rm.Value(), limit)
    ensures turn.Removed? ==> |rm.runningServices.Keys| + |m.instances| + 1 <= |m.running.Keys| + |rm.instances|
    ensures |log.failed| == |before.failed| + if turn.Survived? then 1 else 0
    ensures turn.Survived? ==> mayFail
    ensures turn.Stalled? || turn.GaveUp? ==>
              |log.evictions| + |rm.runningServices.Keys| + |m0.instances| <= |m0.running.Keys| + |rm.instances|
    ensures turn.GaveUp? ==> Grounds(m0, rm.Value(), s, start, limit, why)
    ensures alone && (turn.Removed? || turn.Survived?) ==> SoloSoFar(m0, rm.Value(), s, start, log.evictions)
    ensures turn.GaveUp? ==> Alone(alone, m0, s, start, log.evictions, false, why)
  {
    hide Before, Accounted, PassLacks, Sound, Stopped, Names, Exhausted, Justified, At, Evolves, Grows, Renews,
         SharedOk, AllReleased, SoloSoFar, Alone, Grounds, ResetSince;
    ghost var m1 := rm.Value();
    EvolvesSame(m, m1, limit);
    ghost var e, w, i;
    turn, e, w, i := Pursue(rm, me, s, b, recheck, r, start, patience, mayFail, deadline, limit, alone);
    ghost var m' := rm.Value();
    log, pc, why := before, TurnPc(turn, s, b, e.v, i), NobodyLeft(w);
    EvolvesTrans(m, m1, m', limit);
    Moved(rm, me, pc, m, m, m', limit) by { EvolvesSame(m, m, limit); }
    match turn {
      case Removed =>
        Chased(me, s, b, m, m1, m', e, limit);
        SoundRemoved(m0, m, m', s, alone, log, e);
        if alone { SoloEvicts(me, m0, m, s, b, start, log.evictions, e); }
        log := log.(evictions := log.evictions + [e]);
      case Survived =>
        SoundMoves(m0, m, m', s, alone, log);
        SoundSurvived(m0, m', s, alone, log, e);
        if alone { SoloFails(me, m0, m, s, b, start, log.evictions, e); }
        log := log.(failed := log.failed + [e]);
      case Stalled =>
        SoundMoves(m0, m, m', s, alone, log);
        SoundEnds(m0, m', s, alone, log);
      case Woken(signal) =>
        SoundMoves(m0, m, m', s, alone, log);
        SoundWaited(m0, m', s, alone, log, w);
        log := log.(waits := log.waits + [w]);
      case GaveUp =>
        SoloStops(alone, m0, m, s, start, log.evictions, w);
        SoundMoves(m0, m, m', s, alone, log);
        SoundWaited(m0, m', s, alone, log, w);
        log := log.(waits := log.waits + [w]);
        SoundEnds(m0, m', s, alone, log);
        EvolvesTrans(m0, m, m1, limit);
        NobodyLeftGrounds(m0, m', s, start, limit, w);
    }
  }

  lemma SoloFails(me: nat, m0: Shared, m: Shared, s: Service, b: nat, start: int, evictions: seq<Victim>, e: Victim)
    requires SoloSoFar(m0, m, s, start, evictions) && e.at == m.(first := e.at.first)
    requires Before(me, e.at, Starting(s, b, Lacking(e.r))) && b < |e.at.instances|
    ensures SoloSoFar(m0, ResetSince(e.at, b), s, start, evictions)
  {
    assert SoloSoFar(m0, e.at, s, start, evictions);
    hide *;
    BeforeShared(me, e.at, Starting(s, b, Lacking(e.r)));
    OwnFacts(me, e.at, s, b, Lacking(e.r));
    SoloSurvives(m0, e.at, s, b, start, evictions);
  }

  /** The choice and its end, counted. `m` is the state of the pass, `m1` the one after it. */
  lemma Chased(me: nat, s: Service, b: nat, m: Shared, m1: Shared, m': Shared, e: Victim, limit: nat)
    requires Evolves(m, m1, limit) && Evolves(m1, e.at, limit) && Evolves(e.at, m', limit) && SharedOk(m')
    requires Before(me, e.at, Starting(s, b, Lacking(e.r))) && e.v in e.at.running
    requires e.v in m'.running ==> |e.at.instances| <= m'.running[e.v]
    ensures SharedOk(e.at) && Grows(m, e.at) && Renews(m, e.at) && Grows(e.at, m') && Renews(e.at, m')
    ensures |m'.running.Keys| + |m.instances| + 1 <= |m.running.Keys| + |m'.instances|
  {
    BeforeShared(me, e.at, Starting(s, b, Lacking(e.r)));
    EvolvesTrans(m, m1, e.at, limit);
    assert Grows(m, e.at) && Renews(m, e.at) && Grows(e.at, m') && Renews(e.at, m');
    hide Before, Grows, Renews, Evolves, SharedOk;
    Renewed(m, e.at);
    RenewedWithout(e.at, m', e.v);
  }
}
