/** Every goroutine of the proxy as a program counter, and every critical section as one step.
    The state is the one before shutdown is requested. */
module Machine {
  import opened Model

  /** What a goroutine does once `stopService` returns. */
  datatype Cont =
    | AfterEvict(svc: Service, b: nat)   // the reservation loop of instance `b`
    | AfterAbort(svc: Service, b: nat)   // a start that failed after its command ran
    | AfterRestart(svc: Service)         // a client that restarts an unreachable service
    | AfterIdle                          // the idle timer callback

  /** What follows the release of a manageMutex. */
  datatype Then = ToDial | ToLookup | ToGiveUp | ToAbort | ToConnected | ToCont(k: Cont)

  /** What follows the broadcast of `incrementConnection`. */
  datatype Onward = OnLookup | OnProxy | OnDone

  /** Where `startService` is, for the instance it created. */
  datatype Phase =
    | Pass(recheck: bool)                               // before a pass of the reservation loop
    | Pending(chans: map<Resource, nat>, todo: set<Resource>)
    | PendingDone(chans: map<Resource, nat>, ok: bool)  // about to drop the first-check registrations
    | Lacking(r: Resource)                              // `r` is missing; look for a victim
    | Parking(r: Resource)                              // no victim; about to register
    | Waiting(r: Resource, ch: nat)                     // in the select
    | Leaving(r: Resource, signal: Option<bool>)        // about to deregister; None is timeout or disconnect
    | Refused                                           // reserveResources returned false
    | Reserved                                          // reserveResources returned true
    | Spawning | SpawnFailed | Spawned
    | Probing | Connecting | MakingReady

  datatype Pc =
    | Arriving(svc: Service)
    | Notifying(svc: Service, next: Onward)
    | LookingUp(svc: Service)
    | Trying(svc: Service, i: nat)
    | Queued(svc: Service, i: nat)
    | Dequeued(svc: Service, i: nat)
    | Tracking(svc: Service, i: nat)
    | Dialing(svc: Service)
    | Restarting(svc: Service)
    | Inserting(svc: Service)
    | Connected(svc: Service)
    | Entering(svc: Service)
    | Proxying(svc: Service)
    | Departing(svc: Service)
    | GivingUp(svc: Service)
    | Starting(svc: Service, b: nat, phase: Phase)
    | Returning(svc: Service, b: nat)                 // releaseReservedResources after an abort
    | Unlocking(svc: Service, i: nat, after: Then)
    | StopLookup(victim: Service, k: Cont)
    | StopWait(victim: Service, i: nat, k: Cont)
    | StopHold(victim: Service, i: nat, k: Cont)      // killing the process
    | StopClean(victim: Service, i: nat, k: Cont)
    | IdleFired(svc: Service, i: nat)
    | Reaping(svc: Service, i: nat)                   // process.Wait
    | Reaped(svc: Service, i: nat)
    | Done

  datatype State = State(m: Shared, threads: seq<Pc>)

  /** What a goroutine does in one step; arguments resolve the choices that the program
      leaves to the scheduler, the clock, the network or the operating system. */
  datatype Action =
    | Bump | Notify | Lookup | TryOk | TryFail | QueueLock | QueueCancel | QueueRelease(cancelled: bool)
    | Track(j: nat, now: int) | Dial(ok: bool) | Restart | Create(now: int) | Used(j: nat, now: int)
    | Forwarded(j: nat, now: int)
    | PassCommit | PassAsk(chans: map<Resource, nat>) | PassLack(r: Resource)
    | PendingReceive(r: Resource) | PendingFinish | PendingAbort | PendingDrop
    | EvictPick(v: Service, now: int) | EvictNone(now: int) | Park
    | WaitReceive | WaitAbort | Leave | Refuse | Confirm
    | Spawn(ok: bool) | SpawnCleanUp | SpawnRecord | Probe(ok: bool) | Connect(ok: bool) | Ready | ReturnShare
    | Unlock | StopFind | StopLock | Kill(ok: bool) | StopCleanUp
    | Idle | Exit | Reap

  // ---------------------------------------------------------------- stepping

  function Resume(m: Shared, k: Cont): Shared {
    if k.AfterEvict? && k.b < |m.instances| then ResetSince(m, k.b) else m
  }

  function ResumePc(k: Cont): Pc {
    match k
    case AfterEvict(s, b) => Starting(s, b, Pass(true))
    case AfterAbort(s, b) => Returning(s, b)
    case AfterRestart(s) => Inserting(s)
    case AfterIdle => Done
  }

  function UnlockedPc(s: Service, i: nat, after: Then): Pc {
    match after
    case ToDial => Dialing(s)
    case ToLookup => LookingUp(s)
    case ToGiveUp => GivingUp(s)
    case ToAbort => StopLookup(s, AfterAbort(s, i))
    case ToConnected => Connected(s)
    case ToCont(k) => ResumePc(k)
  }

  function AfterCount(m: Shared, s: Service, next: Onward): Pc {
    if StatsOf(m, s) == Stats(0, 0) then Notifying(s, next) else OnwardPc(s, next)
  }

  function OnwardPc(s: Service, next: Onward): Pc {
    match next
    case OnLookup => LookingUp(s)
    case OnProxy => Proxying(s)
    case OnDone => Done
  }

  /** New channels for a pass that asks: one for every measured resource, numbered upwards. */
  ghost predicate FreshChannels(m: Shared, s: Service, chans: map<Resource, nat>) {
    && chans.Keys == m.cfg.Measured(s)
    && (forall r :: r in chans ==> |m.channels| <= chans[r] < |m.channels| + |chans|)
    && (forall r, q :: r in chans && q in chans && chans[r] == chans[q] ==> r == q)
  }

  /** `m'` has the channels and registrations of a pass that asks, and is otherwise `m`. */
  ghost predicate Asked(m: Shared, s: Service, chans: map<Resource, nat>, m': Shared) {
    && m' == m.(first := m'.first, channels := m'.channels)
    && |m'.channels| == |m.channels| + |chans|
    && (forall k :: 0 <= k < |m.channels| ==> m'.channels[k] == m.channels[k])
    && (forall r :: r in chans && chans[r] < |m'.channels| ==> m'.channels[chans[r]] == Channel(FirstKey(r, s), None))
    && forall r, q :: Entry(m'.first, r, q) == if r in chans && q == s then Some(chans[r]) else Entry(m.first, r, q)
  }

  /** A lookup of `s` found instance `j`, unless `s` was not registered. The instance may have been removed since. */
  predicate Finds(m: Shared, s: Service, j: nat) {
    s in m.running ==> j < |m.instances| && m.instances[j].svc == s
  }

  /** trackServiceLastUsed: `j` is the instance the lookup found, if it found one. */
  function TouchIf(m: Shared, s: Service, j: nat, now: int): Shared {
    if j < |m.instances| && m.instances[j].svc == s then Touch(m, j, now) else m
  }

  function Enlist(m: Shared, r: Resource, s: Service): Shared {
    m.(channels := m.channels + [Channel(ChangeKey(r, s), None)], change := Register(m.change, r, s, |m.channels|))
  }

  /** One step of goroutine `t` at `pc`: `spawn` are the goroutines it starts. As an equation it is used by name;
      otherwise the verifier copies all cases into every contract that mentions a step. */
  ghost predicate Step(t: nat, a: Action, m: Shared, pc: Pc, m': Shared, pc': Pc, spawn: seq<Pc>) {
    true ==
    match pc
    case Starting(s, b, phase) => b < |m.instances| && StartStep(t, a, m, s, b, phase, m', pc', spawn)
    case Unlocking(s, i, th) =>
      && a.Unlock? && spawn == [] && i < |m.instances|
      && m' == (if th.ToCont? then Resume(Free(m, i), th.k) else Free(m, i))
      && pc' == UnlockedPc(s, i, th)
    case StopLookup(v, k) =>
      && a.StopFind? && spawn == []
      && (if v in m.running then m' == m && pc' == StopWait(v, m.running[v], k)
          else m' == Resume(m, k) && pc' == ResumePc(k))
    case StopWait(v, i, k) =>
      && a.StopLock? && spawn == [] && i < |m.instances| && m.instances[i].holder.None?
      && m' == Acquire(m, i, t) && pc' == StopHold(v, i, k)
    case StopHold(v, i, k) =>
      && a.Kill? && spawn == [] && m' == m && i < |m.instances|
      && (if a.ok then pc' == StopClean(v, i, k)
          else m.instances[i].command && pc' == Unlocking(v, i, ToCont(k)))
    case StopClean(v, i, k) =>
      && a.StopCleanUp? && spawn == [] && i < |m.instances|
      && m' == CleanUp(m, i) && pc' == Unlocking(v, i, ToCont(k))
    case IdleFired(s, i) =>
      && a.Idle? && spawn == [] && m' == m && i < |m.instances|
      && pc' == (if m.instances[i].timer && CanBeStopped(m, s, i) then StopLookup(s, AfterIdle) else Done)
    case Reaping(s, i) => a.Exit? && spawn == [] && m' == m && pc' == Reaped(s, i)
    case Reaped(s, i) =>
      && a.Reap? && spawn == [] && i < |m.instances|
      && m' == (if s in m.cfg.stopOnExit then CleanUp(m, i) else m) && pc' == Done
    case Returning(s, b) => a.ReturnShare? && spawn == [] && m' == GiveBack(m, s) && pc' == GivingUp(s)
    case Done => false
    case _ => ClientStep(t, a, m, pc, m', pc', spawn)
  }

  /** handleConnection, startServiceIfNotAlreadyRunningAndConnect and connectToService. */
  ghost predicate ClientStep(t: nat, a: Action, m: Shared, pc: Pc, m': Shared, pc': Pc, spawn: seq<Pc>) {
    && spawn == []
    && match pc
       case Arriving(s) => a.Bump? && m' == Count(m, s, 0, 1) && pc' == AfterCount(m', s, OnLookup)
       case Notifying(s, next) =>
         a.Notify? && m' == Broadcast(m, m.cfg.Requirement(s).Keys, true) && pc' == OnwardPc(s, next)
       case LookingUp(s) =>
         && a.Lookup? && m' == m
         && pc' == (if s in m.running then Trying(s, m.running[s]) else Inserting(s))
       case Trying(s, i) =>
         && i < |m.instances|
         && if a.TryOk? then m.instances[i].holder.None? && m' == Acquire(m, i, t) && pc' == Tracking(s, i)
            else a.TryFail? && m' == m && pc' == Queued(s, i)
       case Queued(s, i) =>
         && i < |m.instances|
         && if a.QueueLock? then m.instances[i].holder.None? && m' == Acquire(m, i, t) && pc' == Dequeued(s, i)
            else a.QueueCancel? && m' == m && pc' == GivingUp(s)
       case Dequeued(s, i) =>
         a.QueueRelease? && m' == m && pc' == Unlocking(s, i, if a.cancelled then ToGiveUp else ToLookup)
       case Tracking(s, i) =>
         && a.Track? && Finds(m, s, a.j) && m' == TouchIf(m, s, a.j, a.now)
         && pc' == Unlocking(s, i, ToDial)
       case Dialing(s) =>
         && a.Dial? && m' == m
         && pc' == (if a.ok then Connected(s) else if s in m.cfg.restart then Restarting(s) else GivingUp(s))
       case Restarting(s) =>
         a.Restart? && m' == m && pc' == (if s in m.running then StopLookup(s, AfterRestart(s)) else Inserting(s))
       case Inserting(s) =>
         && a.Create?
         && if s in m.running then m' == m && pc' == GivingUp(s)
            else m' == Insert(m, s, t, a.now) && pc' == Starting(s, |m.instances|, Pass(true))
       case Connected(s) =>
         && a.Used? && Finds(m, s, a.j) && m' == TouchIf(m, s, a.j, a.now) && pc' == Entering(s)
       case Entering(s) => a.Bump? && m' == Count(m, s, 1, -1) && pc' == AfterCount(m', s, OnProxy)
       case Proxying(s) =>
         && a.Forwarded? && Finds(m, s, a.j) && m' == TouchIf(m, s, a.j, a.now)
         && pc' == Departing(s)
       case Departing(s) => a.Bump? && m' == Count(m, s, -1, 0) && pc' == AfterCount(m', s, OnDone)
       case GivingUp(s) => a.Bump? && m' == Count(m, s, 0, -1) && pc' == AfterCount(m', s, OnDone)
       case _ => false
  }

  /** startService, with reserveResources inlined. */
  ghost predicate StartStep(t: nat, a: Action, m: Shared, s: Service, b: nat, phase: Phase, m': Shared, pc': Pc,
                            spawn: seq<Pc>)
    requires b < |m.instances|
  {
    && (!phase.Spawned? ==> spawn == [])
    && match phase
       case Pass(recheck) => PassStep(a, m, s, b, recheck, m', pc')
       case Pending(chans, todo) => PendingStep(a, m, s, b, chans, todo, m', pc')
       case PendingDone(chans, ok) =>
         && a.PendingDrop? && m' == m.(first := Unregister(m.first, chans.Keys, s))
         && pc' == Starting(s, b, if ok then Pass(false) else Refused)
       case Lacking(r) =>
         && m' == m
         && if a.EvictPick? then IsVictim(m, s, r, a.now, a.v) && pc' == StopLookup(a.v, AfterEvict(s, b))
            else && a.EvictNone? && (forall v :: !Eligible(m, s, r, a.now, v))
                 && pc' == Starting(s, b, Parking(r))
       case Parking(r) => a.Park? && m' == Enlist(m, r, s) && pc' == Starting(s, b, Waiting(r, |m.channels|))
       case Waiting(r, ch) =>
         if a.WaitReceive? then
           && ch < |m.channels| && m.channels[ch].value.Some?
           && m' == Take(m, ch) && pc' == Starting(s, b, Leaving(r, m.channels[ch].value))
         else a.WaitAbort? && m' == m && pc' == Starting(s, b, Leaving(r, None))
       case Leaving(r, signal) =>
         && a.Leave? && m' == m.(change := Unregister(m.change, {r}, s))
         && pc' == Starting(s, b, if signal.Some? then Pass(signal.value) else Refused)
       case Refused => a.Refuse? && m' == CleanUp(m, b) && pc' == Unlocking(s, b, ToGiveUp)
       case Reserved => a.Confirm? && m' == Mark(m, b) && pc' == Starting(s, b, Spawning)
       case Spawning => a.Spawn? && m' == m && pc' == Starting(s, b, if a.ok then Spawned else SpawnFailed)
       case SpawnFailed => a.SpawnCleanUp? && m' == CleanUp(GiveBack(m, s), b) && pc' == Unlocking(s, b, ToGiveUp)
       case Spawned =>
         a.SpawnRecord? && m' == SetCommand(m, b) && pc' == Starting(s, b, Probing) && spawn == [Reaping(s, b)]
       case Probing =>
         a.Probe? && m' == m && pc' == (if a.ok then Starting(s, b, Connecting) else Unlocking(s, b, ToAbort))
       case Connecting =>
         a.Connect? && m' == m && pc' == (if a.ok then Starting(s, b, MakingReady) else Unlocking(s, b, ToAbort))
       case MakingReady => a.Ready? && m' == MakeReady(m, b) && pc' == Unlocking(s, b, ToConnected)
  }

  /** One pass of the reservation loop. */
  ghost predicate PassStep(a: Action, m: Shared, s: Service, b: nat, recheck: bool, m': Shared, pc': Pc)
    requires b < |m.instances|
  {
    match a
    case PassCommit => PassCommits(m, s, recheck) && m' == Commit(m, b) && pc' == Starting(s, b, Reserved)
    case PassAsk(chans) =>
      && PassAsks(m, s, recheck) && FreshChannels(m, s, chans) && Asked(m, s, chans, m')
      && pc' == Starting(s, b, Pending(chans, chans.Keys))
    case PassLack(r) =>
      && PassLacks(m, s, recheck, r) && m' == m.(first := Unregister(m.first, m.first.Keys, s))
      && pc' == Starting(s, b, Lacking(r))
    case _ => false
  }

  /** waitForFirstCheckCommands: take one signal from every channel. */
  ghost predicate PendingStep(a: Action, m: Shared, s: Service, b: nat, chans: map<Resource, nat>,
                              todo: set<Resource>, m': Shared, pc': Pc) {
    match a
    case PendingReceive(r) =>
      && r in todo && r in chans && chans[r] < |m.channels| && m.channels[chans[r]].value.Some?
      && m' == Take(m, chans[r]) && pc' == Starting(s, b, Pending(chans, todo - {r}))
    case PendingFinish => todo == {} && m' == m && pc' == Starting(s, b, PendingDone(chans, true))
    case PendingAbort => todo != {} && m' == m && pc' == Starting(s, b, PendingDone(chans, false))
    case _ => false
  }

  // ---------------------------------------------------------------- the environment

  datatype Event =
    | NewClient(s: Service)
    | IdleTimer(i: nat)                       // the idle timer of an instance fires
    | Measure(r: Resource, amount: int)       // a CheckCommand run ends and its result is cached
    | Publish(r: Resource)                    // the monitor broadcasts the run

  function Measured(m: Shared, r: Resource, amount: int): Shared {
    m.(available := m.available[r := amount], publishing := m.publishing[r := Get(m.available, r) != amount])
  }

  function Published(m: Shared, r: Resource): Shared
    requires r in m.publishing
  {
    var channels := Fill(m.channels, Listeners(m.first, {r}), true);
    m.(channels := if m.publishing[r] then Fill(channels, Listeners(m.change, {r}), false) else channels,
       publishing := m.publishing - {r}, checks := m.checks[r := Get(m.checks, r) + 1])
  }

  ghost predicate Occur(e: Event, m: Shared, m': Shared, spawn: seq<Pc>) {
    match e
    case NewClient(s) => s in m.cfg.requirements && m' == m && spawn == [Arriving(s)]
    case IdleTimer(i) =>
      && i < |m.instances| && m.instances[i].ready && m' == m && spawn == [IdleFired(m.instances[i].svc, i)]
    case Measure(r, amount) => r in m.cfg.check && r !in m.publishing && m' == Measured(m, r, amount) && spawn == []
    case Publish(r) => r in m.cfg.check && r in m.publishing && m' == Published(m, r) && spawn == []
  }

  datatype Label = Do(t: nat, a: Action) | Env(e: Event)

  /** `pc'` and `spawn` are existential: a step of `t` replaces its counter and appends. */
  ghost predicate Next(s: State, l: Label, s': State) {
    match l
    case Do(t, a) =>
      && t < |s.threads| <= |s'.threads|
      && var spawn := s'.threads[|s.threads|..];
         && s'.threads == s.threads[t := s'.threads[t]] + spawn
         && Step(t, a, s.m, s.threads[t], s'.m, s'.threads[t], spawn)
    case Env(e) =>
      && |s.threads| <= |s'.threads|
      && s'.threads == s.threads + s'.threads[|s.threads|..]
      && Occur(e, s.m, s'.m, s'.threads[|s.threads|..])
  }

  ghost predicate Init(s: State) {
    && s.m.cfg.Valid()
    && s.m.inUse == s.m.reserved == (map r | r in s.m.cfg.amount :: 0)
    && s.m.available == (map r | r in s.m.cfg.amount :: 0)
    && s.m.running == map[] && s.m.instances == [] && s.m.channels == []
    && s.m.stats == (map svc | svc in s.m.cfg.requirements :: Stats(0, 0))
    && s.m.change == (map r | r in s.m.cfg.amount :: map[])
    && s.m.first == (map r | r in s.m.cfg.check :: map[])
    && s.m.publishing == map[] && s.m.checks == (map r | r in s.m.cfg.amount :: 0)
    && s.threads == []
  }

  /** A finite run: consecutive states related by labelled steps. */
  ghost predicate IsRun(run: seq<State>, labels: seq<Label>) {
    && |run| == |labels| + 1 && Init(run[0])
    && forall k :: 0 <= k < |labels| ==> Next(run[k], labels[k], run[k + 1])
  }
}
