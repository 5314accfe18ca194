/** Registrations, wake-ups and fresh measurements, over whole runs. */
module WaiterTheorems {
  import opened Model
  import opened Machine
  import opened Invariant
  import opened Operations
  import opened Steps
  import opened Ledger
  import opened Reachable
  import opened Records

  // ---------------------------------------------------------------- reservations in flight

  /** The instance a goroutine is reserving for, between inserting it and leaving the loop. */
  function ReservesFor(pc: Pc): Option<nat> {
    match pc
    case Starting(_, b, phase) =>
      (match phase
       case Pass(_) => Some(b)
       case Pending(_, _) => Some(b)
       case PendingDone(_, _) => Some(b)
       case Lacking(_) => Some(b)
       case Parking(_) => Some(b)
       case Waiting(_, _) => Some(b)
       case Leaving(_, _) => Some(b)
       case Refused => Some(b)
       case _ => None)
    case Unlocking(_, _, ToCont(AfterEvict(_, b))) => Some(b)
    case StopLookup(_, AfterEvict(_, b)) => Some(b)
    case StopWait(_, _, AfterEvict(_, b)) => Some(b)
    case StopHold(_, _, AfterEvict(_, b)) => Some(b)
    case StopClean(_, _, AfterEvict(_, b)) => Some(b)
    case _ => None
  }

  lemma ReserverFacts(s: State, t: nat)
    requires Inv(s) && t < |s.threads| && ReservesFor(s.threads[t]).Some?
    ensures ReservesFor(s.threads[t]).value < |s.m.instances|
    ensures s.m.instances[ReservesFor(s.threads[t]).value].holder == Some(t)
    ensures InReserve(s.m.instances[ReservesFor(s.threads[t]).value])
  {
    assert ThreadOk(s.m, t, s.threads[t]);
    hide Inv, NoEntries, AllFresh;
    assert ReservesFor(s.threads[t]).value in Holds(s.threads[t]);
  }

  /** At most one reservation is in flight for a service. */
  lemma OneReservation(run: seq<State>, labels: seq<Label>, k: nat, t: nat, u: nat)
    requires IsRun(run, labels) && k < |run| && t < |run[k].threads| && u < |run[k].threads|
    requires ReservesFor(run[k].threads[t]).Some? && ReservesFor(run[k].threads[u]).Some?
    requires ReservesFor(run[k].threads[t]).value < |run[k].m.instances|
    requires ReservesFor(run[k].threads[u]).value < |run[k].m.instances|
    requires run[k].m.instances[ReservesFor(run[k].threads[t]).value].svc
             == run[k].m.instances[ReservesFor(run[k].threads[u]).value].svc
    ensures t == u
  {
    RunInv(run, labels, k);
    ReserverFacts(run[k], t);
    ReserverFacts(run[k], u);
    assert RegistryOk(run[k].m);
    hide Inv;
  }

  // ---------------------------------------------------------------- registrations

  /** reserveResources returns, refused or not, with no registration of its service left; and
      nothing is registered before a new registration is made. */
  lemma ReturnsClean(run: seq<State>, labels: seq<Label>, k: nat, t: nat)
    requires IsRun(run, labels) && k < |run| && t < |run[k].threads| && run[k].threads[t].Starting?
    ensures run[k].threads[t].phase.Refused? || run[k].threads[t].phase.Reserved? ==>
              NoEntries(run[k].m, run[k].threads[t].svc)
    ensures run[k].threads[t].phase.Parking? || run[k].threads[t].phase.Pass? ==>
              NoEntries(run[k].m, run[k].threads[t].svc)
  {
    RunInv(run, labels, k);
    StarterPhase(run[k], t);
    hide *;
    CleanPhase(run[k].m, run[k].threads[t].svc, run[k].threads[t].b, run[k].threads[t].phase);
  }

  lemma StarterPhase(s: State, t: nat)
    requires Inv(s) && t < |s.threads| && s.threads[t].Starting?
    ensures s.threads[t].b < |s.m.instances| && PhaseOk(s.m, s.threads[t].svc, s.threads[t].b, s.threads[t].phase)
  {
    assert ThreadOk(s.m, t, s.threads[t]);
    hide Inv, PhaseOk, HoldsOk;
  }

  lemma CleanPhase(m: Shared, s: Service, b: nat, phase: Phase)
    requires b < |m.instances| && PhaseOk(m, s, b, phase)
    ensures phase.Refused? || phase.Reserved? || phase.Parking? || phase.Pass? ==> NoEntries(m, s)
  {
    hide NoEntries, AllFresh, InReserve;
  }

  /** A change registration belongs to the goroutine that waits on it or is about to drop it, and
      to no other resource at the same time. */
  lemma ChangeOwner(run: seq<State>, labels: seq<Label>, k: nat, r: Resource, s: Service) returns (t: nat)
    requires IsRun(run, labels) && k < |run| && Entry(run[k].m.change, r, s).Some?
    ensures t < |run[k].threads| && run[k].threads[t].Starting? && run[k].threads[t].svc == s
    ensures run[k].threads[t].phase == Waiting(r, Entry(run[k].m.change, r, s).value)
            || (run[k].threads[t].phase.Leaving? && run[k].threads[t].phase.r == r)
    ensures forall q :: q != r ==> Entry(run[k].m.change, q, s).None?
  {
    RunInv(run, labels, k);
    t := Registrant(run[k], s);
    assert ThreadOk(run[k].m, t, run[k].threads[t]);
    hide Inv, AllFresh;
  }

  lemma FirstOwner(run: seq<State>, labels: seq<Label>, k: nat, r: Resource, s: Service) returns (t: nat)
    requires IsRun(run, labels) && k < |run| && Entry(run[k].m.first, r, s).Some?
    ensures t < |run[k].threads| && run[k].threads[t].Starting? && run[k].threads[t].svc == s
    ensures run[k].threads[t].phase.Pending? || run[k].threads[t].phase.PendingDone?
  {
    RunInv(run, labels, k);
    t := Registrant(run[k], s);
    assert ThreadOk(run[k].m, t, run[k].threads[t]);
    hide Inv, AllFresh;
  }

  /** Whoever holds the mutex of a reservation with registrations is inside its start. */
  lemma HeldInStart(m: Shared, t: nat, pc: Pc, q: Service, b: nat)
    requires PcOk(m, pc) && b in Holds(pc) && Birth(m, b, q) && Uncommitted(m.instances[b]) && !NoEntries(m, q)
    requires InstanceOk(m, m.instances[b])
    ensures pc.Starting? && pc.svc == q && pc.b == b
  {
    hide NoEntries, PhaseOk, Later;
  }

  /** Only a reservation loop outside a stop can have registrations. */
  lemma Registrant(s: State, q: Service) returns (t: nat)
    requires Inv(s) && !NoEntries(s.m, q)
    ensures t < |s.threads| && s.threads[t].Starting? && s.threads[t].svc == q
    ensures ReservesFor(s.threads[t]).Some?
  {
    var b := s.m.running[q];
    t := ReservingHolder(s, q);
    var pc := s.threads[t];
    hide *;
    HeldInStart(s.m, t, pc, q, b);
  }

  lemma ReservingHolder(s: State, q: Service) returns (t: nat)
    requires Inv(s) && !NoEntries(s.m, q)
    ensures Reserving(s.m, q) && Birth(s.m, s.m.running[q], q) && s.m.instances[s.m.running[q]].holder == Some(t)
    ensures Uncommitted(s.m.instances[s.m.running[q]]) && InstanceOk(s.m, s.m.instances[s.m.running[q]])
    ensures t < |s.threads|
  {
    assert Reserving(s.m, q);
    assert InstanceOk(s.m, s.m.instances[s.m.running[q]]);
    t := s.m.instances[s.m.running[q]].holder.value;
  }

  // ---------------------------------------------------------------- wake-ups

  /** The resources whose change waiters a step signals. */
  function Signals(s: State, l: Label): set<Resource> {
    match l
    case Env(e) => if e.Publish? && e.r in s.m.publishing && s.m.publishing[e.r] then {e.r} else {}
    case Do(t, a) =>
      if t >= |s.threads| then {} else
      match s.threads[t]
      case Notifying(q, _) => s.m.cfg.Requirement(q).Keys
      case Starting(q, b, phase) => if phase.Refused? || phase.SpawnFailed? then CleanUpSignals(s.m, b) else {}
      case StopClean(_, i, _) => CleanUpSignals(s.m, i)
      case Reaped(q, i) => if q in s.m.cfg.stopOnExit then CleanUpSignals(s.m, i) else {}
      case _ => {}
  }

  function CleanUpSignals(m: Shared, i: nat): set<Resource> {
    if i < |m.instances| && !m.instances[i].released then m.cfg.Requirement(m.instances[i].svc).Keys else {}
  }

  /** Goroutine `t` listens on channel `ch` for resource `r`. */
  ghost predicate Listening(s: State, t: nat, r: Resource, ch: nat) {
    && t < |s.threads| && s.threads[t].Starting?
    && match s.threads[t].phase
       case Waiting(q, c) => q == r && c == ch
       case Pending(chans, todo) => r in todo && r in chans && chans[r] == ch
       case _ => false
  }

  /** Step `l` sends to the channels that goroutine `t` listens on for `r`. */
  ghost predicate Addressed(s: State, l: Label, t: nat, r: Resource) {
    && t < |s.threads| && s.threads[t].Starting?
    && if s.threads[t].phase.Waiting? then r in Signals(s, l)
       else l.Env? && l.e.Publish? && l.e.r == r
  }

  ghost predicate Signalled(s: State, ch: nat) {
    ch < |s.m.channels| && s.m.channels[ch].value.Some?
  }

  lemma BroadcastFills(m: Shared, rs: set<Resource>, v: bool, r: Resource, q: Service)
    requires r in rs && Entry(m.change, r, q).Some? && Entry(m.change, r, q).value < |m.channels|
    ensures Broadcast(m, rs, v).channels[Entry(m.change, r, q).value].value.Some?
    ensures |Broadcast(m, rs, v).channels| == |m.channels|
  {
    assert Entry(m.change, r, q).value in Listeners(m.change, rs);
  }

  lemma CleanUpFills(m: Shared, i: nat, r: Resource, q: Service)
    requires SharedOk(m) && i < |m.instances| && r in CleanUpSignals(m, i)
    requires Entry(m.change, r, q).Some?
    ensures Entry(m.change, r, q).value < |CleanUp(m, i).channels|
    ensures CleanUp(m, i).channels[Entry(m.change, r, q).value].value.Some?
  {
    ChangeEntry(m, r, q);
    CleanUpSame(m, i);
    hide SharedOk, CleanUp;
    BroadcastFills(Released(m, i), m.cfg.Requirement(m.instances[i].svc).Keys, true, r, q);
  }

  lemma PublishFillsFirst(m: Shared, r: Resource, q: Service)
    requires SharedOk(m) && r in m.publishing && Entry(m.first, r, q).Some?
    ensures Entry(m.first, r, q).value < |m.channels|
    ensures Published(m, r).channels[Entry(m.first, r, q).value].value.Some?
  {
    FirstEntry(m, r, q);
    hide SharedOk;
    assert Entry(m.first, r, q).value in Listeners(m.first, {r});
  }

  lemma PublishFillsChange(m: Shared, r: Resource, q: Service)
    requires SharedOk(m) && r in m.publishing && m.publishing[r] && Entry(m.change, r, q).Some?
    ensures Entry(m.change, r, q).value < |m.channels|
    ensures Published(m, r).channels[Entry(m.change, r, q).value].value.Some?
  {
    ChangeEntry(m, r, q);
    hide SharedOk;
    assert Entry(m.change, r, q).value in Listeners(m.change, {r});
  }

  lemma StepSignals(s: State, t: nat, a: Action, s': State, r: Resource, q: Service)
    requires SharedOk(s.m) && Next(s, Do(t, a), s') && r in Signals(s, Do(t, a)) && Entry(s.m.change, r, q).Some?
    ensures Signalled(s', Entry(s.m.change, r, q).value)
  {
    var pc, pc', spawn := s.threads[t], s'.threads[t], s'.threads[|s.threads|..];
    ChangeEntry(s.m, r, q);
    hide SharedOk, StartStep, ClientStep, CleanUp, Broadcast, Resume;
    if pc.Notifying? {
      NotifySignals(t, a, s.m, pc, s'.m, pc', spawn);
      BroadcastFills(s.m, s.m.cfg.Requirement(pc.svc).Keys, true, r, q);
    } else if pc.Starting? {
      StartSignals(t, a, s.m, pc.svc, pc.b, pc.phase, s'.m, pc', spawn, r, q);
    } else if pc.StopClean? {
      CleanUpFills(s.m, pc.i, r, q);
    } else if pc.Reaped? {
      CleanUpFills(s.m, pc.i, r, q);
    }
  }

  lemma NotifySignals(t: nat, a: Action, m: Shared, pc: Pc, m': Shared, pc': Pc, spawn: seq<Pc>)
    requires ClientStep(t, a, m, pc, m', pc', spawn) && pc.Notifying?
    ensures m' == Broadcast(m, m.cfg.Requirement(pc.svc).Keys, true)
  {
  }

  lemma StartSignals(t: nat, a: Action, m: Shared, s: Service, b: nat, phase: Phase, m': Shared, pc': Pc,
                     spawn: seq<Pc>, r: Resource, q: Service)
    requires SharedOk(m) && b < |m.instances| && StartStep(t, a, m, s, b, phase, m', pc', spawn)
    requires phase.Refused? || phase.SpawnFailed?
    requires r in CleanUpSignals(m, b) && Entry(m.change, r, q).Some?
    ensures Entry(m.change, r, q).value < |m'.channels| && m'.channels[Entry(m.change, r, q).value].value.Some?
  {
    hide SharedOk, CleanUp, IsVictim, Eligible, PassStep, PendingStep, GiveBack;
    if phase.Refused? {
      CleanUpFills(m, b, r, q);
    } else {
      GiveBackLegal(t, m, s);
      GiveBackChange(m, s);
      CleanUpFills(GiveBack(m, s), b, r, q);
    }
  }

  lemma GiveBackChange(m: Shared, s: Service)
    ensures GiveBack(m, s).change == m.change && GiveBack(m, s).channels == m.channels
    ensures GiveBack(m, s).instances == m.instances && GiveBack(m, s).cfg == m.cfg
  {
  }

  lemma ListeningEntry(s: State, t: nat, r: Resource, ch: nat)
    requires Listening(s, t, r, ch) && s.threads[t].b < |s.m.instances|
    requires PhaseOk(s.m, s.threads[t].svc, s.threads[t].b, s.threads[t].phase)
    ensures (if s.threads[t].phase.Waiting? then Entry(s.m.change, r, s.threads[t].svc)
             else Entry(s.m.first, r, s.threads[t].svc)) == Some(ch)
  {
    hide NoChange, NoFirst, AllFresh;
  }

  lemma PublishReaches(s: State, e: Event, s': State, t: nat, r: Resource, q: Service)
    requires SharedOk(s.m) && Next(s, Env(e), s') && Addressed(s, Env(e), t, r)
    requires (if s.threads[t].phase.Waiting? then Entry(s.m.change, r, q) else Entry(s.m.first, r, q)).Some?
    ensures Signalled(s', (if s.threads[t].phase.Waiting? then Entry(s.m.change, r, q)
                           else Entry(s.m.first, r, q)).value)
  {
    assert |Published(s.m, r).channels| == |s.m.channels|;
    hide SharedOk, Published, Entry;
    if s.threads[t].phase.Waiting? {
      PublishFillsChange(s.m, r, q);
    } else {
      PublishFillsFirst(s.m, r, q);
    }
  }

  /** A broadcast leaves the channel of every listener it addresses non-empty. */
  lemma Reached(s: State, l: Label, s': State, t: nat, r: Resource, ch: nat)
    requires Inv(s) && Next(s, l, s') && Listening(s, t, r, ch) && Addressed(s, l, t, r)
    ensures Signalled(s', ch)
  {
    assert SharedOk(s.m) && Next(s, l, s');
    StarterPhase(s, t);
    ListeningEntry(s, t, r, ch);
    var q := s.threads[t].svc;
    hide Inv, SharedOk, PhaseOk, Signals;
    match l {
      case Env(e) =>
        PublishReaches(s, e, s', t, r, q);
      case Do(u, a) =>
        hide Next;
        StepSignals(s, u, a, s', r, q);
    }
  }

  // ---------------------------------------------------------------- a signal stays until it is received

  lemma GuarKeepsSignal(t: nat, u: nat, m: Shared, m': Shared, s: Service, ch: nat)
    requires Guar(u, m, m') && ch < |m.channels| && m.channels[ch].value.Some? && m.channels[ch].key.svc == s
    requires t != u && s in m.running && m.running[s] < |m.instances| && m.instances[m.running[s]].holder == Some(t)
    ensures ch < |m'.channels| && m'.channels[ch].value.Some?
  {
    assert ChannelGuar(m, m', u, m.channels[ch], m'.channels[ch]);
  }

  lemma ListenerFacts(s: State, t: nat, r: Resource, ch: nat)
    requires Inv(s) && Listening(s, t, r, ch)
    ensures ch < |s.m.channels| && s.m.channels[ch].key.svc == s.threads[t].svc && s.m.channels[ch].key.r == r
    ensures s.threads[t].svc in s.m.running && s.m.running[s.threads[t].svc] < |s.m.instances|
    ensures s.m.instances[s.m.running[s.threads[t].svc]].holder == Some(t)
  {
    var pc := s.threads[t];
    assert ThreadOk(s.m, t, pc);
    assert pc.b in Holds(pc);
    assert s.m.running[pc.svc] == pc.b;
    if pc.phase.Waiting? {
      ChangeEntry(s.m, r, pc.svc);
    } else {
      assert Entry(s.m.first, r, pc.svc) == Some(ch);
      FirstEntry(s.m, r, pc.svc);
    }
    hide Inv, NoEntries, AllFresh;
  }

  lemma PendingSignalKeeps(t: nat, a: Action, m: Shared, pc: Pc, m': Shared, pc': Pc, spawn: seq<Pc>, r: Resource,
                           ch: nat)
    requires Step(t, a, m, pc, m', pc', spawn) && SharedOk(m) && pc.Starting? && pc.phase.Pending?
    requires pc.b < |m.instances| && PhaseOk(m, pc.svc, pc.b, pc.phase)
    requires ch < |m.channels| && m.channels[ch].value.Some? && m.channels[ch].key.r == r
    requires pc'.Starting? && pc'.phase.Pending? && r in pc'.phase.todo
    ensures ch < |m'.channels| && m'.channels[ch].value.Some?
  {
    var s, chans, todo := pc.svc, pc.phase.chans, pc.phase.todo;
    assert PendingStep(a, m, s, pc.b, chans, todo, m', pc') by { hide PendingStep, SharedOk, PhaseOk; }
    if a.PendingReceive? {
      assert a.r in chans && a.r != r;
      assert Entry(m.first, a.r, s) == Some(chans[a.r]) by { hide NoChange, InReserve; }
      FirstEntry(m, a.r, s);
    }
    hide SharedOk, PhaseOk, Step;
  }

  /** Every step out of the select leads to the deregistration. */
  lemma WaitingLeaves(t: nat, a: Action, m: Shared, pc: Pc, m': Shared, pc': Pc, spawn: seq<Pc>)
    requires Step(t, a, m, pc, m', pc', spawn) && pc.Starting? && pc.phase.Waiting?
    ensures pc'.Starting? && pc'.phase.Leaving?
  {
    hide PassStep, PendingStep, Take;
  }

  lemma PendingLeads(t: nat, a: Action, m: Shared, pc: Pc, m': Shared, pc': Pc, spawn: seq<Pc>)
    requires Step(t, a, m, pc, m', pc', spawn) && pc.Starting? && pc.phase.Pending?
    ensures pc'.Starting? && (pc'.phase.Pending? || pc'.phase.PendingDone?)
  {
    hide PassStep, Take;
  }

  /** Own steps of a listener that goes on listening take other channels only. */
  lemma OwnStepKeeps(s: State, t: nat, a: Action, s': State, r: Resource, ch: nat)
    requires Inv(s) && Next(s, Do(t, a), s') && Listening(s, t, r, ch) && Listening(s', t, r, ch) && Signalled(s, ch)
    ensures Signalled(s', ch)
  {
    assert SharedOk(s.m) && t < |s.threads| <= |s'.threads|;
    assert Step(t, a, s.m, s.threads[t], s'.m, s'.threads[t], s'.threads[|s.threads|..]);
    hide Inv, Next, SharedOk, Step, PhaseOk;
    var pc, pc', spawn := s.threads[t], s'.threads[t], s'.threads[|s.threads|..];
    ListenerFacts(s, t, r, ch);
    StarterPhase(s, t);
    if pc.phase.Pending? {
      PendingLeads(t, a, s.m, pc, s'.m, pc', spawn);
      PendingSignalKeeps(t, a, s.m, pc, s'.m, pc', spawn, r, ch);
    } else {
      WaitingLeaves(t, a, s.m, pc, s'.m, pc', spawn);
    }
  }

  lemma SignalStays(s: State, l: Label, s': State, t: nat, r: Resource, ch: nat)
    requires Inv(s) && Next(s, l, s') && Listening(s, t, r, ch) && Listening(s', t, r, ch) && Signalled(s, ch)
    ensures Signalled(s', ch)
  {
    ListenerFacts(s, t, r, ch);
    match l
    case Env(e) =>
      hide Listening;
      EventLegal(|s'.threads|, e, s.m, s'.m, s'.threads[|s.threads|..]);
      assert t < |s'.threads|;
      GuarKeepsSignal(t, |s'.threads|, s.m, s'.m, s.threads[t].svc, ch);
    case Do(u, a) =>
      if u == t {
        OwnStepKeeps(s, t, a, s', r, ch);
      } else {
        assert Signalled(s', ch) by {
          var pc, pc', spawn := s.threads[u], s'.threads[u], s'.threads[|s.threads|..];
          assert Step(u, a, s.m, pc, s'.m, pc', spawn);
          assert Before(u, s.m, pc);
          hide Inv, Before, Step;
          StepOk(u, a, s.m, pc, s'.m, pc', spawn);
          GuarKeepsSignal(t, u, s.m, s'.m, s.threads[t].svc, ch);
        }
      }
  }

  lemma {:induction false} Retained(run: seq<State>, labels: seq<Label>, i: nat, j: nat, t: nat, r: Resource, ch: nat)
    requires IsRun(run, labels) && i <= j < |run| && Signalled(run[i], ch)
    requires forall k :: i <= k <= j ==> Listening(run[k], t, r, ch)
    ensures Signalled(run[j], ch)
    decreases j - i
  {
    hide Inv, Next, Init, Listening;
    if i < j {
      RunInv(run, labels, i);
      assert Next(run[i], labels[i], run[i + 1]);
      SignalStays(run[i], labels[i], run[i + 1], t, r, ch);
      Retained(run, labels, i + 1, j, t, r, ch);
    }
  }

  /** Once a waiter listens on a resource, a broadcast that addresses it leaves its channel
      non-empty until it receives, whoever else broadcasts in between. */
  lemma WakeupRetained(run: seq<State>, labels: seq<Label>, i: nat, j: nat, t: nat, r: Resource, ch: nat)
    requires IsRun(run, labels) && i < j < |run|
    requires forall k :: i <= k <= j ==> Listening(run[k], t, r, ch)
    requires Addressed(run[i], labels[i], t, r)
    ensures Signalled(run[j], ch)
  {
    RunInv(run, labels, i);
    hide Inv, Next, Init, Listening, Addressed;
    assert Next(run[i], labels[i], run[i + 1]);
    Reached(run[i], labels[i], run[i + 1], t, r, ch);
    Retained(run, labels, i + 1, j, t, r, ch);
  }

  /** The program awaits the first-check channels one at a time, in an order of its own; whichever it
      has come to is full once all that remain are. */
  ghost predicate AllAnswered(s: State, t: nat) {
    t < |s.threads| && s.threads[t].Starting?
    && (s.threads[t].phase.Pending? ==>
          forall q :: q in s.threads[t].phase.todo && q in s.threads[t].phase.chans ==>
            Signalled(s, s.threads[t].phase.chans[q]))
  }

  /** So its receive is enabled. */
  lemma ReceiveEnabled(run: seq<State>, labels: seq<Label>, k: nat, t: nat, r: Resource, ch: nat)
    requires IsRun(run, labels) && k < |run| && Listening(run[k], t, r, ch) && Signalled(run[k], ch)
    requires AllAnswered(run[k], t)
    ensures exists a: Action, pc' :: (a.WaitReceive? || a == PendingReceive(r))
                             && Step(t, a, run[k].m, run[k].threads[t], Take(run[k].m, ch), pc', [])
  {
    RunInv(run, labels, k);
    var m, pc := run[k].m, run[k].threads[t];
    StarterPhase(run[k], t);
    hide Inv, PhaseOk, IsRun, Step;
    Receives(t, m, pc.svc, pc.b, pc.phase, r, ch);
  }

  lemma Receives(t: nat, m: Shared, s: Service, b: nat, phase: Phase, r: Resource, ch: nat)
    requires b < |m.instances| && ch < |m.channels| && m.channels[ch].value.Some?
    requires phase == Waiting(r, ch)
             || (phase.Pending? && r in phase.todo && r in phase.chans && phase.chans[r] == ch)
    ensures exists a: Action, pc' :: (a.WaitReceive? || a == PendingReceive(r))
                             && Step(t, a, m, Starting(s, b, phase), Take(m, ch), pc', [])
  {
    hide Step, PassStep, CleanUp, Take, IsVictim, Eligible, Enlist, Unregister;
    if phase.Waiting? {
      StartIsStep(t, WaitReceive, m, s, b, phase, Take(m, ch), Starting(s, b, Leaving(r, m.channels[ch].value)), []);
    } else {
      StartIsStep(t, PendingReceive(r), m, s, b, phase, Take(m, ch),
                  Starting(s, b, Pending(phase.chans, phase.todo - {r})), []);
    }
  }

  // ---------------------------------------------------------------- fresh measurements

  /** Step `l` is the return of an eviction made for instance `b`. */
  ghost predicate EvictionReturns(s: State, l: Label, s': State, b: nat) {
    && l.Do? && (l.a.StopFind? || l.a.Unlock?) && l.t < |s.threads| && l.t < |s'.threads|
    && s'.threads[l.t].Starting? && s'.threads[l.t].b == b
  }

  ghost predicate Born(s: State, s': State, b: nat) {
    |s.m.instances| <= b < |s'.m.instances|
  }

  /** State `o` is where the baseline of `b` was last set: at its birth, or when an eviction for
      it last returned. */
  ghost predicate Origin(run: seq<State>, labels: seq<Label>, o: nat, k: nat, b: nat)
    requires |run| == |labels| + 1
  {
    && 0 < o <= k < |run|
    && (Born(run[o - 1], run[o], b) || EvictionReturns(run[o - 1], labels[o - 1], run[o], b))
    && b < |run[k].m.instances| && run[k].m.instances[b].since == run[o].m.checks
    && forall p :: o <= p < k ==> !EvictionReturns(run[p], labels[p], run[p + 1], b)
  }

  lemma {:induction false} SinceOrigin(run: seq<State>, labels: seq<Label>, k: nat, b: nat) returns (o: nat)
    requires IsRun(run, labels) && k < |run| && b < |run[k].m.instances|
    ensures Origin(run, labels, o, k, b)
  {
    hide *;
    StepBefore(run, labels, k, b);
    SinceNow(run[k - 1], labels[k - 1], run[k], b);
    if b < |run[k - 1].m.instances| && !EvictionReturns(run[k - 1], labels[k - 1], run[k], b) {
      o := SinceOrigin(run, labels, k - 1, b);
      OriginStays(run, labels, o, k, b);
    } else {
      o := k;
      OriginNow(run, labels, k, b);
    }
  }

  lemma StepBefore(run: seq<State>, labels: seq<Label>, k: nat, b: nat)
    requires IsRun(run, labels) && k < |run| && b < |run[k].m.instances|
    ensures |run| == |labels| + 1 && 0 < k && Inv(run[k - 1]) && Next(run[k - 1], labels[k - 1], run[k])
  {
    assert k > 0;
    hide Init, Inv, Next;
    RunInv(run, labels, k - 1);
    assert Next(run[k - 1], labels[k - 1], run[k - 1 + 1]);
  }

  lemma OriginStays(run: seq<State>, labels: seq<Label>, o: nat, k: nat, b: nat)
    requires 0 < k < |run| == |labels| + 1 && Origin(run, labels, o, k - 1, b)
    requires b < |run[k].m.instances| && run[k].m.instances[b].since == run[k - 1].m.instances[b].since
    requires !EvictionReturns(run[k - 1], labels[k - 1], run[k], b)
    ensures Origin(run, labels, o, k, b)
  {
    hide EvictionReturns;
    forall p | o <= p < k ensures !EvictionReturns(run[p], labels[p], run[p + 1], b) {
      if p == k - 1 {
        assert run[p + 1] == run[k];
      }
    }
  }

  lemma OriginNow(run: seq<State>, labels: seq<Label>, k: nat, b: nat)
    requires 0 < k < |run| == |labels| + 1 && b < |run[k].m.instances|
    requires b >= |run[k - 1].m.instances| || EvictionReturns(run[k - 1], labels[k - 1], run[k], b)
    requires run[k].m.instances[b].since == run[k].m.checks
    ensures Origin(run, labels, k, k, b)
  {
    hide EvictionReturns;
  }

  lemma SinceNow(s: State, l: Label, s': State, b: nat)
    requires Next(s, l, s') && b < |s'.m.instances|
    ensures b >= |s.m.instances| || EvictionReturns(s, l, s', b) ==> s'.m.instances[b].since == s'.m.checks
    ensures b < |s.m.instances| && !EvictionReturns(s, l, s', b) ==> s'.m.instances[b].since == s.m.instances[b].since
  {
    RecordNext(s, l, s', b);
    hide Next;
  }

  /** A count of checks that grew between two states of a run grew at a broadcast of the monitor. */
  lemma {:induction false} CheckBetween(run: seq<State>, labels: seq<Label>, o: nat, k: nat, r: Resource)
    returns (p: nat)
    requires IsRun(run, labels) && o <= k < |run| && Get(run[k].m.checks, r) > Get(run[o].m.checks, r)
    ensures o <= p < k && labels[p] == Env(Publish(r))
  {
    hide Init, Inv, Next;
    p := k - 1;
    RunInv(run, labels, p);
    assert Next(run[p], labels[p], run[p + 1]);
    if labels[p] != Env(Publish(r)) {
      OtherwiseSame(run[p], labels[p], run[k], r);
      p := CheckBetween(run, labels, o, k - 1, r);
    }
  }

  lemma OtherwiseSame(s: State, l: Label, s': State, r: Resource)
    requires Next(s, l, s') && l != Env(Publish(r))
    ensures Get(s'.m.checks, r) == Get(s.m.checks, r)
  {
    hide Step, Written;
    match l
    case Do(t, a) => StepDevelops(t, a, s.m, s.threads[t], s'.m, s'.threads[t], s'.threads[|s.threads|..]);
    case Env(e) => EventChecks(e, s.m, s'.m, s'.threads[|s.threads|..], r);
  }

  lemma EventChecks(e: Event, m: Shared, m': Shared, spawn: seq<Pc>, r: Resource)
    requires Occur(e, m, m', spawn) && e != Publish(r)
    ensures Get(m'.checks, r) == Get(m.checks, r)
  {
  }

  /** What a commit of run step `k` rests on. */
  ghost predicate Justified(run: seq<State>, labels: seq<Label>, k: nat, s: Service, b: nat, r: Resource)
    requires |run| == |labels| + 1
  {
    exists o: nat, p: nat ::
      && Origin(run, labels, o, k, b) && o <= p < k && labels[p] == Env(Publish(r))
  }

  /** A reservation commits only in a pass in which every static test and every cached CheckCommand
      test succeeds; it adds all amounts to both ledgers; and for every measured resource a check
      completed since the reservation began and since its own last eviction. */
  lemma MeasuredCommit(run: seq<State>, labels: seq<Label>, k: nat, t: nat, s: Service, b: nat, recheck: bool)
    requires IsRun(run, labels) && k < |labels| && labels[k] == Do(t, PassCommit)
    requires t < |run[k].threads| && run[k].threads[t] == Starting(s, b, Pass(recheck))
    ensures StaticEnough(run[k].m, s) && MeasuredEnough(run[k].m, s)
    ensures forall r :: Get(run[k + 1].m.inUse, r) == Get(run[k].m.inUse, r) + run[k].m.cfg.Need(s, r)
    ensures forall r :: Get(run[k + 1].m.reserved, r) == Get(run[k].m.reserved, r) + run[k].m.cfg.Need(s, r)
    ensures forall r :: r in run[k].m.cfg.Measured(s) ==> Justified(run, labels, k, s, b, r)
  {
    RunInv(run, labels, k);
    assert ThreadOk(run[k].m, t, run[k].threads[t]);
    assert Next(run[k], labels[k], run[k + 1]);
    hide Inv, NoEntries, Init, Justified;
    assert PassCommits(run[k].m, s, recheck) && run[k + 1].m == Commit(run[k].m, b);
    CommitLedger(run[k].m, b);
    hide Commit, StaticShort, Next;
    assert MeasuredEnough(run[k].m, s) by {
      if recheck {
        forall r ensures !MeasuredShort(run[k].m, s, r) { assert r !in run[k].m.cfg.Measured(s); }
      }
    }
    forall r | r in run[k].m.cfg.Measured(s) ensures Justified(run, labels, k, s, b, r) {
      assert Justified(run, labels, k, s, b, r) by {
        var o := SinceOrigin(run, labels, k, b);
        var p := CheckBetween(run, labels, o, k, r);
        hide IsRun, Fresh;
      }
    }
  }
}
