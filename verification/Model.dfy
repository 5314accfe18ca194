/** The values the proxy's goroutines share: the configuration, the records behind
    `RunningService` pointers, the resource ledger, the two waiter registries with their
    channels, and the connection counters. */
module Model {
  type Service = string
  type Resource = string

  datatype Option<+T> = None | Some(value: T)

  /** The part of the configuration the resource protocol reads. */
  datatype Config = Config(
    amount: map<Resource, int>,                       // ResourcesAvailable[r].Amount
    check: set<Resource>,                             // resources with a CheckCommand
    requirements: map<Service, map<Resource, int>>,   // ResourceRequirements by service
    stopOnExit: set<Service>,                         // ConsiderStoppedOnProcessExit
    restart: set<Service>                             // RestartOnConnectionFailure
  ) {
    /** What configuration loading promises: required resources are declared. Amounts are
        quantities, so they are not negative. */
    ghost predicate Valid() {
      && check <= amount.Keys
      && (forall r :: r in amount ==> 0 <= amount[r])
      && (forall s, r :: s in requirements && r in requirements[s] ==> r in amount && 0 <= requirements[s][r])
    }

    function Requirement(s: Service): map<Resource, int> {
      if s in requirements then requirements[s] else map[]
    }

    function Need(s: Service, r: Resource): int {
      Get(Requirement(s), r)
    }

    /** The required resources that a CheckCommand measures. */
    function Measured(s: Service): set<Resource> {
      Requirement(s).Keys * check
    }
  }

  /** A map read that yields the zero value for a missing key. */
  function Get(m: map<Resource, int>, r: Resource): int {
    if r in m then m[r] else 0
  }

  function Plus(m: map<Resource, int>, d: map<Resource, int>): map<Resource, int> {
    map r | r in m.Keys + d.Keys :: Get(m, r) + Get(d, r)
  }

  function Minus(m: map<Resource, int>, d: map<Resource, int>): map<Resource, int> {
    map r | r in m.Keys + d.Keys :: Get(m, r) - Get(d, r)
  }

  /** A `RunningService` record. The last two fields are history: nothing in the program
      reads them. */
  datatype Instance = Instance(
    svc: Service,
    holder: Option<nat>,         // the goroutine that took the manageMutex token, if any
    waiting: bool,               // isWaitingForResources
    marked: bool,                // resourcesReserved
    released: bool,              // *resourcesReleased
    command: bool,               // cmd != nil
    ready: bool,                 // isReady
    timer: bool,                 // idleTimer != nil
    lastUsed: int,
    committed: bool,             // its requirements were added to the ledger
    since: map<Resource, int>    // `checks` when its reservation, or its last eviction, ended
  )

  /** Where a channel was registered when it was created. */
  datatype Key = ChangeKey(r: Resource, svc: Service) | FirstKey(r: Resource, svc: Service)

  /** A channel of capacity one. Signals without a payload are sent as `true`. */
  datatype Channel = Channel(key: Key, value: Option<bool>)

  datatype Stats = Stats(proxied: int, waiting: int)

  type Registry = map<Resource, map<Service, nat>>

  /** Everything behind the manager's mutexes. An instance is named by its birth number, its
      index in `instances`; a channel by its index in `channels`. */
  datatype Shared = Shared(
    cfg: Config,
    inUse: map<Resource, int>,
    reserved: map<Resource, int>,
    available: map<Resource, int>,
    running: map<Service, nat>,
    instances: seq<Instance>,
    stats: map<Service, Stats>,
    change: Registry,                          // resourceChangeByResourceChans
    first: Registry,                           // checkCommandFirstChangeByResourceChans
    channels: seq<Channel>,
    publishing: map<Resource, bool>,           // monitors between caching a result and broadcasting it
    checks: map<Resource, int>                 // history: successful checks completed so far
  )

  // ---------------------------------------------------------------- registries

  function Entry(reg: Registry, r: Resource, s: Service): Option<nat> {
    if r in reg && s in reg[r] then Some(reg[r][s]) else None
  }

  function Register(reg: Registry, r: Resource, s: Service, k: nat): Registry {
    reg[r := (if r in reg then reg[r] else map[])[s := k]]
  }

  /** `delete(reg[r], s)` for every `r` in `rs`. */
  function Unregister(reg: Registry, rs: set<Resource>, s: Service): Registry {
    map r | r in reg :: if r in rs then reg[r] - {s} else reg[r]
  }

  function Listeners(reg: Registry, rs: set<Resource>): set<nat> {
    set r, s | r in rs && r in reg && s in reg[r] :: reg[r][s]
  }

  /** The non-blocking send: a full channel keeps what it has. */
  function Send(c: Channel, v: bool): Channel {
    if c.value.None? then c.(value := Some(v)) else c
  }

  function Fill(channels: seq<Channel>, ks: set<nat>, v: bool): (filled: seq<Channel>)
    ensures |filled| == |channels|
  {
    seq(|channels|, k requires 0 <= k < |channels| => if k in ks then Send(channels[k], v) else channels[k])
  }

  /** broadcastResourceChanges. */
  function Broadcast(m: Shared, rs: set<Resource>, v: bool): Shared {
    m.(channels := Fill(m.channels, Listeners(m.change, rs), v))
  }

  function Take(m: Shared, k: nat): Shared
    requires k < |m.channels|
  {
    m.(channels := m.channels[k := m.channels[k].(value := None)])
  }

  // ---------------------------------------------------------------- instances

  function SetInstance(m: Shared, i: nat, x: Instance): Shared
    requires i < |m.instances|
  {
    m.(instances := m.instances[i := x])
  }

  function Acquire(m: Shared, i: nat, t: nat): Shared
    requires i < |m.instances|
  {
    SetInstance(m, i, m.instances[i].(holder := Some(t)))
  }

  function Free(m: Shared, i: nat): Shared
    requires i < |m.instances|
  {
    SetInstance(m, i, m.instances[i].(holder := None))
  }

  function Touch(m: Shared, i: nat, now: int): Shared
    requires i < |m.instances|
  {
    SetInstance(m, i, m.instances[i].(lastUsed := now))
  }

  /** The record `startService` inserts, with its own manageMutex already taken. */
  function Newborn(m: Shared, s: Service, t: nat, now: int): Instance {
    Instance(s, Some(t), true, false, false, false, false, false, now, false, m.checks)
  }

  function Insert(m: Shared, s: Service, t: nat, now: int): Shared {
    m.(instances := m.instances + [Newborn(m, s, t, now)], running := m.running[s := |m.instances|])
  }

  function Mark(m: Shared, b: nat): Shared
    requires b < |m.instances|
  {
    SetInstance(m, b, m.instances[b].(waiting := false, marked := true))
  }

  function SetCommand(m: Shared, b: nat): Shared
    requires b < |m.instances|
  {
    SetInstance(m, b, m.instances[b].(command := true))
  }

  function ResetSince(m: Shared, b: nat): Shared
    requires b < |m.instances|
  {
    SetInstance(m, b, m.instances[b].(since := m.checks))
  }

  /** releaseReservedResources. */
  function GiveBack(m: Shared, s: Service): Shared {
    m.(reserved := Minus(m.reserved, m.cfg.Requirement(s)))
  }

  /** The critical section that ends a successful start. */
  function MakeReady(m: Shared, b: nat): Shared
    requires b < |m.instances|
  {
    SetInstance(GiveBack(m, m.instances[b].svc), b, m.instances[b].(ready := true, timer := true))
  }

  /** cleanUpStoppedServiceWhenServiceMutexIsLocked, asked to release. */
  function CleanUp(m: Shared, i: nat): Shared
    requires i < |m.instances|
  {
    var x := m.instances[i];
    if x.released then m
    else
      var used := m.cfg.Requirement(x.svc);
      var inUse := if x.marked then Minus(m.inUse, used) else m.inUse;
      var running := if x.svc in m.running && m.running[x.svc] == i then m.running - {x.svc} else m.running;
      Broadcast(SetInstance(m, i, x.(released := true, timer := false)).(inUse := inUse, running := running),
                used.Keys, true)
  }

  // ---------------------------------------------------------------- reservation

  /** The static test of the first loop. */
  predicate StaticShort(m: Shared, s: Service, r: Resource) {
    && r in m.cfg.Requirement(s) && r !in m.cfg.check
    && m.cfg.Need(s, r) > Get(m.cfg.amount, r) - Get(m.inUse, r)
  }

  /** The cached-measurement test of the second loop. */
  predicate MeasuredShort(m: Shared, s: Service, r: Resource) {
    && r in m.cfg.Measured(s)
    && m.cfg.Need(s, r) > Get(m.available, r) - Get(m.reserved, r)
  }

  ghost predicate StaticEnough(m: Shared, s: Service) {
    forall r :: !StaticShort(m, s, r)
  }

  ghost predicate MeasuredEnough(m: Shared, s: Service) {
    forall r :: !MeasuredShort(m, s, r)
  }

  /** A pass that reserves: all resources suffice and none awaits a fresh measurement. */
  ghost predicate PassCommits(m: Shared, s: Service, recheck: bool) {
    && StaticEnough(m, s)
    && if recheck then m.cfg.Measured(s) == {} else MeasuredEnough(m, s)
  }

  /** A pass that first asks the monitors for fresh measurements. */
  ghost predicate PassAsks(m: Shared, s: Service, recheck: bool) {
    StaticEnough(m, s) && recheck && m.cfg.Measured(s) != {}
  }

  /** A pass that reports `r` as missing. */
  ghost predicate PassLacks(m: Shared, s: Service, recheck: bool, r: Resource) {
    StaticShort(m, s, r) || (StaticEnough(m, s) && !recheck && MeasuredShort(m, s, r))
  }

  /** The commit: every required amount is added to both ledgers. */
  function Commit(m: Shared, b: nat): Shared
    requires b < |m.instances|
  {
    var x := m.instances[b];
    var need := m.cfg.Requirement(x.svc);
    SetInstance(m, b, x.(committed := true))
      .(inUse := Plus(m.inUse, need), reserved := Plus(m.reserved, need),
        change := Unregister(m.change, need.Keys, x.svc))
  }

  /** canBeStopped: nobody manages the instance and no connection is forwarded. */
  predicate CanBeStopped(m: Shared, s: Service, i: nat)
    requires i < |m.instances|
  {
    m.instances[i].holder.None? && (s in m.stats ==> m.stats[s].proxied == 0)
  }

  /** The services `findEarliestLastUsedServiceUsingResource` considers for `s`. */
  predicate Eligible(m: Shared, s: Service, r: Resource, now: int, v: Service) {
    && v in m.running && v != s && m.running[v] < |m.instances|
    && m.cfg.Need(v, r) != 0
    && CanBeStopped(m, v, m.running[v])
    && m.instances[m.running[v]].lastUsed < now
  }

  function LastUsed(m: Shared, v: Service): int
    requires v in m.running && m.running[v] < |m.instances|
  {
    m.instances[m.running[v]].lastUsed
  }

  /** An eligible service that was used least recently. */
  ghost predicate IsVictim(m: Shared, s: Service, r: Resource, now: int, v: Service) {
    && Eligible(m, s, r, now, v)
    && forall w :: Eligible(m, s, r, now, w) ==> LastUsed(m, v) <= LastUsed(m, w)
  }

  // ---------------------------------------------------------------- connections

  function Clamp(x: int): int { if x < 0 then 0 else x }

  function StatsOf(m: Shared, s: Service): Stats {
    if s in m.stats then m.stats[s] else Stats(0, 0)
  }

  /** incrementConnection, up to the decision whether to broadcast. */
  function Count(m: Shared, s: Service, proxied: int, waiting: int): Shared {
    m.(stats := m.stats[s := Stats(Clamp(StatsOf(m, s).proxied + proxied), Clamp(StatsOf(m, s).waiting + waiting))])
  }
}
