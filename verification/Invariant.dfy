/** What every reachable state satisfies, split into facts about the shared values, facts each
    goroutine may rely on at its program counter, and what one goroutine's step may change. */
module Invariant {
  import opened Model
  import opened Machine

  // ---------------------------------------------------------------- program counters

  function Own(k: Cont): set<nat> {
    if k.AfterEvict? then {k.b} else {}
  }

  /** The instances whose manageMutex a goroutine at `pc` has taken. */
  function Holds(pc: Pc): set<nat> {
    match pc
    case Dequeued(_, i) => {i}
    case Tracking(_, i) => {i}
    case Starting(_, b, _) => {b}
    case Unlocking(_, i, after) => {i} + if after.ToCont? then Own(after.k) else {}
    case StopLookup(_, k) => Own(k)
    case StopWait(_, _, k) => Own(k)
    case StopHold(_, i, k) => {i} + Own(k)
    case StopClean(_, i, k) => {i} + Own(k)
    case _ => {}
  }

  function Client(k: Cont): Option<Service> {
    match k
    case AfterIdle => None
    case AfterEvict(s, _) => Some(s)
    case AfterAbort(s, _) => Some(s)
    case AfterRestart(s) => Some(s)
  }

  /** The service a client connection at `pc` is counted as waiting for. */
  function WaitsOn(pc: Pc): Option<Service> {
    match pc
    case Notifying(s, next) => if next.OnLookup? then Some(s) else None
    case LookingUp(s) => Some(s)
    case Trying(s, _) => Some(s)
    case Queued(s, _) => Some(s)
    case Dequeued(s, _) => Some(s)
    case Tracking(s, _) => Some(s)
    case Dialing(s) => Some(s)
    case Restarting(s) => Some(s)
    case Inserting(s) => Some(s)
    case Connected(s) => Some(s)
    case Entering(s) => Some(s)
    case GivingUp(s) => Some(s)
    case Starting(s, _, _) => Some(s)
    case Returning(s, _) => Some(s)
    case Unlocking(s, _, after) => if after.ToCont? then Client(after.k) else Some(s)
    case StopLookup(_, k) => Client(k)
    case StopWait(_, _, k) => Client(k)
    case StopHold(_, _, k) => Client(k)
    case StopClean(_, _, k) => Client(k)
    case _ => None
  }

  /** The service a client connection at `pc` is counted as proxied to. */
  function ProxiesTo(pc: Pc): Option<Service> {
    match pc
    case Notifying(s, next) => if next.OnProxy? then Some(s) else None
    case Proxying(s) => Some(s)
    case Departing(s) => Some(s)
    case _ => None
  }

  function Debt(k: Cont): Option<Service> {
    if k.AfterAbort? then Some(k.svc) else None
  }

  /** The service whose share of `resourcesReserved` a goroutine at `pc` still has to return. */
  function Debtor(pc: Pc): Option<Service> {
    match pc
    case Starting(s, _, phase) =>
      (match phase
       case Reserved => Some(s)
       case Spawning => Some(s)
       case SpawnFailed => Some(s)
       case Spawned => Some(s)
       case Probing => Some(s)
       case Connecting => Some(s)
       case MakingReady => Some(s)
       case _ => None)
    case Unlocking(s, _, after) =>
      if after.ToAbort? then Some(s) else if after.ToCont? then Debt(after.k) else None
    case StopLookup(_, k) => Debt(k)
    case StopWait(_, _, k) => Debt(k)
    case StopHold(_, _, k) => Debt(k)
    case StopClean(_, _, k) => Debt(k)
    case Returning(s, _) => Some(s)
    case _ => None
  }

  // ---------------------------------------------------------------- shared values

  predicate Uncommitted(x: Instance) { !x.committed && !x.released }

  /** Nobody's start is between taking the mutex and recording the command. */
  predicate Settled(x: Instance) { x.released || x.command }

  ghost predicate InstanceOk(m: Shared, x: Instance) {
    && (x.marked ==> x.committed) && (x.command ==> x.marked) && (x.ready ==> x.command)
    && x.waiting == !x.marked
    && (x.holder.None? ==> Settled(x))
    && forall r :: Get(x.since, r) <= Get(m.checks, r)
  }

  ghost predicate RegistryOk(m: Shared) {
    && (forall s :: s in m.running ==>
          && m.running[s] < |m.instances| && m.instances[m.running[s]].svc == s
          && !m.instances[m.running[s]].released && s in m.cfg.requirements)
    && (forall i :: 0 <= i < |m.instances| && !m.instances[i].released ==>
          m.instances[i].svc in m.running && m.running[m.instances[i].svc] == i)
  }

  /** `s` has a reservation in flight. */
  ghost predicate Reserving(m: Shared, s: Service) {
    s in m.running && m.running[s] < |m.instances| && Uncommitted(m.instances[m.running[s]])
  }

  ghost predicate WaitersOk(m: Shared) {
    && (forall r, s :: Entry(m.change, r, s).Some? ==>
          && Entry(m.change, r, s).value < |m.channels|
          && m.channels[Entry(m.change, r, s).value].key == ChangeKey(r, s) && Reserving(m, s))
    && (forall r, s :: Entry(m.first, r, s).Some? ==>
          && Entry(m.first, r, s).value < |m.channels|
          && m.channels[Entry(m.first, r, s).value].key == FirstKey(r, s) && Reserving(m, s))
  }

  ghost predicate LedgerKeys(m: Shared) {
    && m.inUse.Keys == m.cfg.amount.Keys && m.reserved.Keys == m.cfg.amount.Keys
    && m.cfg.amount.Keys <= m.available.Keys
    && m.publishing.Keys <= m.cfg.check
  }

  ghost predicate SharedOk(m: Shared) {
    && m.cfg.Valid()
    && RegistryOk(m) && WaitersOk(m) && LedgerKeys(m)
    && forall i :: 0 <= i < |m.instances| ==> InstanceOk(m, m.instances[i])
  }

  // ---------------------------------------------------------------- goroutines

  ghost predicate NoChange(m: Shared, s: Service) {
    forall r :: Entry(m.change, r, s).None?
  }

  ghost predicate NoFirst(m: Shared, s: Service) {
    forall r :: Entry(m.first, r, s).None?
  }

  ghost predicate NoEntries(m: Shared, s: Service) {
    NoChange(m, s) && NoFirst(m, s)
  }

  /** The measured resource `r` had a successful check complete since the reservation of
      instance `b` began and since its own last eviction. */
  ghost predicate Fresh(m: Shared, b: nat, r: Resource)
    requires b < |m.instances|
  {
    Get(m.checks, r) > Get(m.instances[b].since, r)
  }

  ghost predicate AllFresh(m: Shared, s: Service, b: nat)
    requires b < |m.instances|
  {
    forall r :: r in m.cfg.Measured(s) ==> Fresh(m, b, r)
  }

  predicate InReserve(x: Instance) {
    !x.committed && !x.released && !x.marked && !x.command
  }

  ghost predicate OnlyChange(m: Shared, s: Service, r: Resource) {
    forall q :: q != r ==> Entry(m.change, q, s).None?
  }

  ghost predicate PhaseOk(m: Shared, s: Service, b: nat, phase: Phase)
    requires b < |m.instances|
  {
    var x := m.instances[b];
    match phase
    case Pass(recheck) => InReserve(x) && NoEntries(m, s) && (!recheck ==> AllFresh(m, s, b))
    case Pending(chans, todo) =>
      && InReserve(x) && NoChange(m, s) && chans.Keys == m.cfg.Measured(s) && todo <= chans.Keys
      && (forall r :: Entry(m.first, r, s) == if r in chans then Some(chans[r]) else None)
      && (forall r :: r in chans ==>
            && chans[r] < |m.channels|
            && (r !in todo || m.channels[chans[r]].value.Some? ==> Fresh(m, b, r)))
    case PendingDone(chans, ok) =>
      && InReserve(x) && NoChange(m, s) && (forall r :: r !in chans ==> Entry(m.first, r, s).None?)
      && (ok ==> AllFresh(m, s, b))
    case Lacking(r) =>
      && InReserve(x) && NoEntries(m, s) && r in m.cfg.Requirement(s) && (r in m.cfg.check ==> AllFresh(m, s, b))
    case Parking(r) =>
      && InReserve(x) && NoEntries(m, s) && r in m.cfg.Requirement(s) && (r in m.cfg.check ==> AllFresh(m, s, b))
    case Waiting(r, ch) =>
      && InReserve(x) && NoFirst(m, s) && OnlyChange(m, s, r) && Entry(m.change, r, s) == Some(ch)
      && ch < |m.channels| && r in m.cfg.Requirement(s) && (r in m.cfg.check ==> AllFresh(m, s, b))
      && (m.channels[ch].value == Some(false) ==> r in m.cfg.check)
    case Leaving(r, signal) =>
      InReserve(x) && NoFirst(m, s) && OnlyChange(m, s, r) && (signal == Some(false) ==> AllFresh(m, s, b))
    case Refused => InReserve(x) && NoEntries(m, s)
    case Reserved => x.committed && !x.marked && !x.released && !x.command && NoEntries(m, s)
    case Spawning => x.marked && !x.released && !x.command
    case SpawnFailed => x.marked && !x.released && !x.command
    case Spawned => x.marked && !x.released && !x.command
    case Probing => x.command
    case Connecting => x.command
    case MakingReady => x.command
  }

  ghost predicate ContOk(m: Shared, k: Cont) {
    match k
    case AfterEvict(s, b) =>
      b < |m.instances| && m.instances[b].svc == s && InReserve(m.instances[b]) && NoEntries(m, s)
    case AfterAbort(s, b) => b < |m.instances|
    case _ => true
  }

  ghost predicate Birth(m: Shared, i: nat, s: Service) {
    i < |m.instances| && m.instances[i].svc == s
  }

  /** Instance `i` may be waited for by the reservation loop of an earlier instance only. */
  ghost predicate Later(m: Shared, i: nat, k: Cont) {
    k.AfterEvict? && i < |m.instances| && Uncommitted(m.instances[i]) ==> i > k.b
  }

  ghost predicate PcOk(m: Shared, pc: Pc) {
    match pc
    case Arriving(s) => s in m.cfg.requirements
    case Trying(s, i) => Birth(m, i, s)
    case Queued(s, i) => Birth(m, i, s)
    case Dequeued(s, i) => Birth(m, i, s) && Settled(m.instances[i])
    case Tracking(s, i) => Birth(m, i, s) && Settled(m.instances[i])
    case Starting(s, b, phase) => Birth(m, b, s) && PhaseOk(m, s, b, phase)
    case Unlocking(s, i, after) =>
      && Birth(m, i, s) && Settled(m.instances[i])
      && (after.ToCont? ==> ContOk(m, after.k)) && (after.ToAbort? ==> m.instances[i].command)
    case StopLookup(v, k) => ContOk(m, k) && forall i: nat :: Birth(m, i, v) ==> Later(m, i, k)
    case StopWait(v, i, k) => ContOk(m, k) && Birth(m, i, v) && Later(m, i, k)
    case StopHold(v, i, k) => ContOk(m, k) && Birth(m, i, v) && Settled(m.instances[i])
    case StopClean(v, i, k) => ContOk(m, k) && Birth(m, i, v) && Settled(m.instances[i])
    case IdleFired(s, i) => Birth(m, i, s)
    case Reaping(s, i) => Birth(m, i, s) && m.instances[i].command
    case Reaped(s, i) => Birth(m, i, s) && m.instances[i].command
    case Returning(s, b) => b < |m.instances|
    case _ => true
  }

  ghost predicate HoldsOk(m: Shared, t: nat, pc: Pc) {
    forall i :: i in Holds(pc) ==> i < |m.instances| && m.instances[i].holder == Some(t)
  }

  ghost predicate ThreadOk(m: Shared, t: nat, pc: Pc) {
    && HoldsOk(m, t, pc) && PcOk(m, pc)
    && (WaitsOn(pc).Some? ==> WaitsOn(pc).value in m.cfg.requirements)
  }

  // ---------------------------------------------------------------- interference

  /** `t` holds the reservation in flight for `s`. */
  ghost predicate Owns(m: Shared, t: nat, s: Service) {
    Reserving(m, s) && m.instances[m.running[s]].holder == Some(t)
  }

  predicate InstanceGuar(t: nat, a: Instance, b: Instance) {
    && b.svc == a.svc
    && (b.holder == a.holder || (a.holder.None? && b.holder == Some(t)) || (a.holder == Some(t) && b.holder.None?))
    && (a.committed ==> b.committed) && (a.released ==> b.released)
    && (a.marked ==> b.marked) && (a.command ==> b.command) && (a.ready ==> b.ready)
    && (a.holder != Some(t) ==>
          && b.committed == a.committed && b.marked == a.marked && b.command == a.command && b.since == a.since
          && (!a.command ==> b.released == a.released))
  }

  ghost predicate ChannelGuar(m: Shared, m': Shared, t: nat, a: Channel, b: Channel) {
    && b.key == a.key
    && (b.value != a.value ==>
          if a.value.Some? then b.value.None? && Owns(m, t, a.key.svc)
          else && (a.key.ChangeKey? && b.value == Some(false) ==> a.key.r in m.cfg.check)
               && (a.key.FirstKey? ==> Get(m'.checks, a.key.r) > Get(m.checks, a.key.r)))
  }

  /** What a step of goroutine `t` may do to the shared values, as seen by the others. */
  ghost predicate Guar(t: nat, m: Shared, m': Shared) {
    && m'.cfg == m.cfg
    && |m.instances| <= |m'.instances|
    && (forall i :: 0 <= i < |m.instances| ==> InstanceGuar(t, m.instances[i], m'.instances[i]))
    && (forall i :: |m.instances| <= i < |m'.instances| ==> m'.instances[i].holder == Some(t))
    && (forall r :: Get(m.checks, r) <= Get(m'.checks, r))
    && |m.channels| <= |m'.channels|
    && (forall k :: 0 <= k < |m.channels| ==> ChannelGuar(m, m', t, m.channels[k], m'.channels[k]))
    && (forall r, s :: Entry(m'.change, r, s) != Entry(m.change, r, s) ==> Owns(m, t, s))
    && (forall r, s :: Entry(m'.first, r, s) != Entry(m.first, r, s) ==> Owns(m, t, s))
  }

  /** The instance a goroutine reserves for is the registered one, so nobody else touches its
      registrations. */
  lemma Private(m: Shared, m': Shared, t: nat, u: nat, s: Service, b: nat)
    requires SharedOk(m) && Guar(t, m, m') && t != u
    requires Birth(m, b, s) && m.instances[b].holder == Some(u) && InReserve(m.instances[b])
    ensures forall r :: Entry(m'.change, r, s) == Entry(m.change, r, s)
    ensures forall r :: Entry(m'.first, r, s) == Entry(m.first, r, s)
    ensures InReserve(m'.instances[b]) && m'.instances[b].since == m.instances[b].since
  {
    assert m.running[s] == b;
    assert !Owns(m, t, s);
    assert InstanceGuar(t, m.instances[b], m'.instances[b]);
  }

  lemma StayFresh(m: Shared, m': Shared, t: nat, u: nat, s: Service, b: nat)
    requires Guar(t, m, m') && t != u
    requires b < |m.instances| && m.instances[b].holder == Some(u) && AllFresh(m, s, b)
    ensures AllFresh(m', s, b)
  {
    assert InstanceGuar(t, m.instances[b], m'.instances[b]);
    forall r | r in m'.cfg.Measured(s) ensures Fresh(m', b, r) {
      assert Fresh(m, b, r);
    }
  }

  lemma StayContOk(m: Shared, m': Shared, t: nat, u: nat, k: Cont)
    requires SharedOk(m) && Guar(t, m, m') && t != u
    requires ContOk(m, k) && forall i :: i in Own(k) ==> i < |m.instances| && m.instances[i].holder == Some(u)
    ensures ContOk(m', k)
  {
    if k.AfterEvict? {
      assert k.b in Own(k);
      Private(m, m', t, u, k.svc, k.b);
      assert InstanceGuar(t, m.instances[k.b], m'.instances[k.b]);
    }
  }

  lemma StayLater(m: Shared, m': Shared, t: nat, i: nat, k: Cont)
    requires Guar(t, m, m') && Later(m, i, k) && (k.AfterEvict? ==> k.b < |m.instances|)
    ensures Later(m', i, k)
  {
    if i < |m.instances| {
      assert InstanceGuar(t, m.instances[i], m'.instances[i]);
    }
  }

  lemma StayPending(m: Shared, m': Shared, t: nat, u: nat, s: Service, b: nat, chans: map<Resource, nat>,
                    todo: set<Resource>)
    requires SharedOk(m) && Guar(t, m, m') && t != u
    requires Birth(m, b, s) && m.instances[b].holder == Some(u) && PhaseOk(m, s, b, Pending(chans, todo))
    ensures b < |m'.instances| && PhaseOk(m', s, b, Pending(chans, todo))
  {
    Private(m, m', t, u, s, b);
    forall r | r in chans
      ensures chans[r] < |m'.channels| && (r !in todo || m'.channels[chans[r]].value.Some? ==> Fresh(m', b, r))
    {
      assert Entry(m.first, r, s) == Some(chans[r]);
      StayAnswered(m, m', t, b, r, s, chans[r]);
    }
  }

  /** A first-check channel that became full did so because its check completed. */
  lemma StayAnswered(m: Shared, m': Shared, t: nat, b: nat, r: Resource, s: Service, ch: nat)
    requires Guar(t, m, m') && b < |m.instances| && m'.instances[b].since == m.instances[b].since
    requires InstanceOk(m, m.instances[b])
    requires ch < |m.channels| && m.channels[ch].key == FirstKey(r, s)
    ensures Fresh(m, b, r) ==> Fresh(m', b, r)
    ensures (m.channels[ch].value.Some? ==> Fresh(m, b, r)) && m'.channels[ch].value.Some? ==> Fresh(m', b, r)
  {
    assert ChannelGuar(m, m', t, m.channels[ch], m'.channels[ch]);
  }

  lemma StayWaiting(m: Shared, m': Shared, t: nat, u: nat, s: Service, b: nat, r: Resource, ch: nat)
    requires SharedOk(m) && Guar(t, m, m') && t != u
    requires Birth(m, b, s) && m.instances[b].holder == Some(u) && PhaseOk(m, s, b, Waiting(r, ch))
    ensures b < |m'.instances| && PhaseOk(m', s, b, Waiting(r, ch))
  {
    Private(m, m', t, u, s, b);
    if r in m.cfg.check {
      StayFresh(m, m', t, u, s, b);
    }
    assert Entry(m.change, r, s) == Some(ch);
    assert ChannelGuar(m, m', t, m.channels[ch], m'.channels[ch]);
  }

  lemma StayReserve(m: Shared, m': Shared, t: nat, u: nat, s: Service, b: nat, phase: Phase)
    requires SharedOk(m) && Guar(t, m, m') && t != u
    requires Birth(m, b, s) && m.instances[b].holder == Some(u) && PhaseOk(m, s, b, phase)
    requires phase.Pass? || phase.PendingDone? || phase.Lacking? || phase.Parking? || phase.Leaving? || phase.Refused?
    ensures b < |m'.instances| && PhaseOk(m', s, b, phase)
  {
    Private(m, m', t, u, s, b);
    if AllFresh(m, s, b) {
      StayFresh(m, m', t, u, s, b);
    }
  }

  /** After the reservation a start relies on flags of its own instance only. */
  lemma StayCommand(m: Shared, m': Shared, t: nat, u: nat, s: Service, b: nat, phase: Phase)
    requires Guar(t, m, m') && t != u
    requires Birth(m, b, s) && m.instances[b].holder == Some(u) && PhaseOk(m, s, b, phase)
    requires phase.Spawning? || phase.SpawnFailed? || phase.Spawned? || phase.Probing? || phase.Connecting?
             || phase.MakingReady?
    ensures b < |m'.instances| && PhaseOk(m', s, b, phase)
  {
    assert InstanceGuar(t, m.instances[b], m'.instances[b]);
    hide Guar, AllFresh, NoEntries;
  }

  lemma StayPhaseOk(m: Shared, m': Shared, t: nat, u: nat, s: Service, b: nat, phase: Phase)
    requires SharedOk(m) && Guar(t, m, m') && t != u
    requires Birth(m, b, s) && m.instances[b].holder == Some(u) && PhaseOk(m, s, b, phase)
    ensures Birth(m', b, s) && PhaseOk(m', s, b, phase)
  {
    StayBirth(m, m', t, b, s);
    hide SharedOk, Guar, PhaseOk, InReserve;
    if phase.Pending? {
      StayPending(m, m', t, u, s, b, phase.chans, phase.todo);
    } else if phase.Waiting? {
      StayWaiting(m, m', t, u, s, b, phase.r, phase.ch);
    } else if phase.Reserved? {
    } else if phase.Spawning? || phase.SpawnFailed? || phase.Spawned? || phase.Probing? || phase.Connecting?
              || phase.MakingReady? {
      StayCommand(m, m', t, u, s, b, phase);
    } else {
      StayReserve(m, m', t, u, s, b, phase);
    }
  }

  lemma StayBirth(m: Shared, m': Shared, t: nat, i: nat, s: Service)
    requires Guar(t, m, m') && Birth(m, i, s)
    ensures Birth(m', i, s)
    ensures Settled(m.instances[i]) ==> Settled(m'.instances[i])
    ensures m.instances[i].command ==> m'.instances[i].command
  {
    assert InstanceGuar(t, m.instances[i], m'.instances[i]);
  }

  lemma StayStopLookup(m: Shared, m': Shared, t: nat, v: Service, k: Cont)
    requires Guar(t, m, m') && ContOk(m, k) && forall i: nat :: Birth(m, i, v) ==> Later(m, i, k)
    ensures forall i: nat :: Birth(m', i, v) ==> Later(m', i, k)
  {
    forall i: nat | Birth(m', i, v) ensures Later(m', i, k) {
      if i < |m.instances| {
        assert InstanceGuar(t, m.instances[i], m'.instances[i]);
        assert Birth(m, i, v);
        StayLater(m, m', t, i, k);
      }
    }
  }

  lemma StayStopOk(m: Shared, m': Shared, t: nat, u: nat, pc: Pc)
    requires SharedOk(m) && Guar(t, m, m') && t != u && HoldsOk(m, u, pc) && PcOk(m, pc)
    requires pc.StopLookup? || pc.StopWait? || pc.StopHold? || pc.StopClean?
    ensures PcOk(m', pc)
  {
    hide SharedOk, Guar, PhaseOk;
    match pc
    case StopLookup(v, k) => StayContOk(m, m', t, u, k); StayStopLookup(m, m', t, v, k);
    case StopWait(v, i, k) => StayContOk(m, m', t, u, k); StayLater(m, m', t, i, k); StayBirth(m, m', t, i, v);
    case StopHold(v, i, k) => StayContOk(m, m', t, u, k); StayBirth(m, m', t, i, v);
    case StopClean(v, i, k) => StayContOk(m, m', t, u, k); StayBirth(m, m', t, i, v);
  }

  /** Counters that rely on little more than the instance they name. */
  lemma StayNamed(m: Shared, m': Shared, t: nat, u: nat, pc: Pc)
    requires SharedOk(m) && Guar(t, m, m') && t != u && PcOk(m, pc)
    requires pc.Trying? || pc.Queued? || pc.Dequeued? || pc.Tracking? || pc.IdleFired? || pc.Reaping? || pc.Reaped?
    ensures PcOk(m', pc)
  {
    hide SharedOk, Guar;
    StayBirth(m, m', t, pc.i, pc.svc);
  }

  lemma StayStarting(m: Shared, m': Shared, t: nat, u: nat, s: Service, b: nat, phase: Phase)
    requires SharedOk(m) && Guar(t, m, m') && t != u
    requires HoldsOk(m, u, Starting(s, b, phase)) && PcOk(m, Starting(s, b, phase))
    ensures PcOk(m', Starting(s, b, phase))
  {
    hide SharedOk, Guar, PhaseOk;
    assert b in Holds(Starting(s, b, phase));
    StayPhaseOk(m, m', t, u, s, b, phase);
  }

  lemma StayPcOk(m: Shared, m': Shared, t: nat, u: nat, pc: Pc)
    requires SharedOk(m) && Guar(t, m, m') && t != u && HoldsOk(m, u, pc) && PcOk(m, pc)
    ensures PcOk(m', pc)
  {
    assert m'.cfg == m.cfg && |m.instances| <= |m'.instances|;
    hide SharedOk, Guar, PhaseOk, HoldsOk, ContOk, Birth, Later;
    if pc.Trying? || pc.Queued? || pc.Dequeued? || pc.Tracking? || pc.IdleFired? || pc.Reaping? || pc.Reaped? {
      hide PcOk;
      StayNamed(m, m', t, u, pc);
    } else if pc.Starting? {
      hide PcOk;
      StayStarting(m, m', t, u, pc.svc, pc.b, pc.phase);
    } else if pc.Unlocking? {
      hide PcOk;
      assert PcOk(m', Unlocking(pc.svc, pc.i, pc.after));
    } else if pc.StopLookup? || pc.StopWait? || pc.StopHold? || pc.StopClean? {
      hide PcOk;
      StayStopOk(m, m', t, u, pc);
    }
  }

  /** A goroutine's facts survive every step of every other goroutine. */
  lemma StayOk(m: Shared, m': Shared, t: nat, u: nat, pc: Pc)
    requires SharedOk(m) && Guar(t, m, m') && t != u && ThreadOk(m, u, pc)
    ensures ThreadOk(m', u, pc)
  {
    StayPcOk(m, m', t, u, pc);
    forall i | i in Holds(pc) ensures i < |m'.instances| && m'.instances[i].holder == Some(u) {
      assert InstanceGuar(t, m.instances[i], m'.instances[i]);
    }
  }
}
