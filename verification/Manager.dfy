/** The resource manager as the program has it: maps that methods update in place, each method
    a critical section with its loops, proved against the operations on `Shared`. */
module Manager {
  import opened Model
  import opened Machine
  import opened Operations

  // ---------------------------------------------------------------- the status report

  datatype ServiceState = Stopped | WaitingForResources | StartingUp | Running

  datatype ServiceStatus = ServiceStatus(
    name: Service, state: ServiceState, waiting: int, proxied: int, lastUsed: Option<int>,
    requirements: map<Resource, int>)

  datatype ResourceUsage = ResourceUsage(total: int, reserved: int, inUse: int, free: int, usage: map<Service, int>)

  function StateOf(m: Shared, s: Service): ServiceState
    requires s in m.running ==> m.running[s] < |m.instances|
  {
    if s !in m.running then Stopped
    else
      var x := m.instances[m.running[s]];
      if x.ready then Running else if x.waiting then WaitingForResources else StartingUp
  }

  /** `stats` is the snapshot of the connection counters, taken before the serviceMutex. */
  function StatusOf(m: Shared, stats: map<Service, Stats>, s: Service): ServiceStatus
    requires s in stats && (s in m.running ==> m.running[s] < |m.instances|)
  {
    ServiceStatus(s, StateOf(m, s), stats[s].waiting, stats[s].proxied,
                  if s in m.running then Some(m.instances[m.running[s]].lastUsed) else None, m.cfg.Requirement(s))
  }

  function FreeOf(m: Shared, r: Resource): int {
    if r in m.cfg.check then Get(m.available, r) else Get(m.cfg.amount, r) - Get(m.inUse, r)
  }

  function UsageBy(m: Shared, services: seq<Service>, r: Resource): map<Service, int> {
    map s | s in services && s in m.running && r in m.cfg.Requirement(s) :: m.cfg.Requirement(s)[r]
  }

  function UsageOf(m: Shared, services: seq<Service>, r: Resource): ResourceUsage {
    ResourceUsage(Get(m.cfg.amount, r), Get(m.reserved, r), Get(m.inUse, r), FreeOf(m, r), UsageBy(m, services, r))
  }

  // ---------------------------------------------------------------- facts for the loops

  lemma FillTwice(channels: seq<Channel>, a: set<nat>, b: set<nat>, v: bool)
    ensures Fill(Fill(channels, a, v), b, v) == Fill(channels, a + b, v)
  {
  }

  lemma FillNothing(channels: seq<Channel>, v: bool)
    ensures Fill(channels, {}, v) == channels
  {
  }

  lemma ListenersGrow(reg: Registry, rs: set<Resource>, r: Resource)
    ensures Listeners(reg, rs + {r}) == Listeners(reg, rs) + if r in reg then reg[r].Values else {}
  {
    var one := if r in reg then reg[r].Values else {};
    forall k ensures k in Listeners(reg, rs + {r}) <==> k in Listeners(reg, rs) + one {
      if k in one {
        var s :| s in reg[r] && reg[r][s] == k;
      }
    }
  }

  function Zeros(rs: set<Resource>): map<Resource, int> {
    map r | r in rs :: 0
  }

  function Empties(rs: set<Resource>): Registry {
    map r | r in rs :: map[]
  }

  lemma WithinEmpties(rs: set<Resource>)
    ensures Within(Empties(rs), 0)
  {
  }

  lemma TablesGrow(done: set<Resource>, check: set<Resource>, r: Resource)
    ensures Zeros(done + {r}) == Zeros(done)[r := 0] && Empties(done + {r}) == Empties(done)[r := map[]]
    ensures Empties((done + {r}) * check)
            == if r in check then Empties(done * check)[r := map[]] else Empties(done * check)
  {
    if r in check {
      assert (done + {r}) * check == done * check + {r};
    } else {
      assert (done + {r}) * check == done * check;
    }
  }

  /** The channels after a check of `r` was broadcast. */
  function CheckSignals(channels: seq<Channel>, first: Registry, change: Registry, r: Resource,
                        changed: bool): seq<Channel> {
    var told := Fill(channels, Listeners(first, {r}), true);
    if changed then Fill(told, Listeners(change, {r}), false) else told
  }

  lemma TablesInit(m: Shared)
    requires m.cfg.Valid() && m.running == map[] && m.instances == [] && m.channels == [] && m.publishing == map[]
    requires m.inUse == m.reserved == m.available == m.checks == Zeros(m.cfg.amount.Keys)
    requires m.stats == map svc | svc in m.cfg.requirements :: Stats(0, 0)
    requires m.change == Empties(m.cfg.amount.Keys) && m.first == Empties(m.cfg.check)
    ensures Init(State(m, []))
  {
  }

  /** Every registered channel is one of the first `n`. */
  ghost predicate Within(reg: Registry, n: nat) {
    forall r, s :: r in reg && s in reg[r] ==> reg[r][s] < n
  }

  lemma WithinRegister(reg: Registry, n: nat, r: Resource, s: Service)
    requires Within(reg, n)
    ensures Within(Register(reg, r, s, n), n + 1) && Within(reg, n + 1)
  {
  }

  ghost predicate Numbered(base: nat, chans: map<Resource, nat>) {
    && (forall r :: r in chans ==> base <= chans[r] < base + |chans|)
    && (forall r, q :: r in chans && q in chans && chans[r] == chans[q] ==> r == q)
  }

  lemma AskedNothing(m: Shared, s: Service)
    ensures Asked(m, s, map[], m) && Numbered(|m.channels|, map[])
  {
  }

  lemma AskedAll(m: Shared, s: Service, chans: map<Resource, nat>)
    requires Numbered(|m.channels|, chans) && chans.Keys == m.cfg.Measured(s)
    ensures FreshChannels(m, s, chans)
  {
  }

  /** Asking for one resource more. */
  lemma AskedMore(m: Shared, s: Service, chans: map<Resource, nat>, m1: Shared, r: Resource, m2: Shared)
    requires Asked(m, s, chans, m1) && r !in chans && Numbered(|m.channels|, chans)
    requires m2 == m1.(channels := m1.channels + [Channel(FirstKey(r, s), None)],
                       first := Register(m1.first, r, s, |m1.channels|))
    ensures Asked(m, s, chans[r := |m1.channels|], m2) && Numbered(|m.channels|, chans[r := |m1.channels|])
  {
    AskedChannels(m, s, chans, m1, r, m2.channels);
    AskedEntries(m, s, chans, m1, r);
    hide Register, Entry, Numbered;
  }

  lemma AskedChannels(m: Shared, s: Service, chans: map<Resource, nat>, m1: Shared, r: Resource, channels: seq<Channel>)
    requires Asked(m, s, chans, m1) && r !in chans && Numbered(|m.channels|, chans)
    requires channels == m1.channels + [Channel(FirstKey(r, s), None)]
    ensures forall q :: q in chans[r := |m1.channels|] && chans[r := |m1.channels|][q] < |channels| ==>
              channels[chans[r := |m1.channels|][q]] == Channel(FirstKey(q, s), None)
  {
    var more := chans[r := |m1.channels|];
    forall q | q in more && more[q] < |channels| ensures channels[more[q]] == Channel(FirstKey(q, s), None) {
      if q != r {
        assert m1.channels[chans[q]] == Channel(FirstKey(q, s), None);
      }
    }
  }

  lemma AskedEntries(m: Shared, s: Service, chans: map<Resource, nat>, m1: Shared, r: Resource)
    requires Asked(m, s, chans, m1) && r !in chans
    ensures forall p, q :: Entry(Register(m1.first, r, s, |m1.channels|), p, q)
              == if p in chans[r := |m1.channels|] && q == s then Some(chans[r := |m1.channels|][p])
                 else Entry(m.first, p, q)
  {
    RegisterEntry(m1.first, r, s, |m1.channels|);
    hide Register, Entry;
  }

  /** `b` is `a` with the amounts of the resources in `done` added. */
  ghost predicate Added(a: map<Resource, int>, b: map<Resource, int>, need: map<Resource, int>, done: set<Resource>) {
    b.Keys == a.Keys + done && forall r :: Get(b, r) == Get(a, r) + if r in done then Get(need, r) else 0
  }

  lemma AddedNone(a: map<Resource, int>, need: map<Resource, int>)
    ensures Added(a, a, need, {})
  {
  }

  lemma AddedOne(a: map<Resource, int>, b: map<Resource, int>, need: map<Resource, int>, done: set<Resource>,
                 r: Resource)
    requires Added(a, b, need, done) && r in need && r !in done
    ensures Added(a, b[r := Get(b, r) + need[r]], need, done + {r})
  {
  }

  lemma AddedAll(a: map<Resource, int>, b: map<Resource, int>, need: map<Resource, int>)
    requires Added(a, b, need, need.Keys)
    ensures b == Plus(a, need)
  {
    assert forall r :: r in b ==> b[r] == Get(b, r);
  }

  class ResourceManager {
    const cfg: Config
    var resourcesInUse: map<Resource, int>
    var resourcesReserved: map<Resource, int>
    var resourcesAvailable: map<Resource, int>
    var runningServices: map<Service, nat>
    var instances: seq<Instance>
    var connectionStats: map<Service, Stats>
    var changeChans: Registry
    var firstChans: Registry
    var channels: seq<Channel>
    ghost var publishing: map<Resource, bool>
    var checks: map<Resource, int>              // history, as in `Shared`

    ghost function Value(): Shared
      reads this
    {
      Shared(cfg, resourcesInUse, resourcesReserved, resourcesAvailable, runningServices, instances, connectionStats,
             changeChans, firstChans, channels, publishing, checks)
    }

    /** Pointers lead somewhere: registered births and channels exist. */
    ghost predicate Valid()
      reads this
    {
      && (forall s :: s in runningServices ==> runningServices[s] < |instances|)
      && Within(changeChans, |channels|) && Within(firstChans, |channels|)
    }

    /** The tables `main` builds. */
    constructor (cfg: Config)
      requires cfg.check <= cfg.amount.Keys
      ensures Valid() && this.cfg == cfg
      ensures cfg.Valid() ==> Init(State(Value(), []))
    {
      this.cfg := cfg;
      resourcesInUse, resourcesReserved, resourcesAvailable := map[], map[], map[];
      runningServices, instances, connectionStats := map[], [], map[];
      changeChans, firstChans, channels := map[], map[], [];
      publishing, checks := map[], Zeros(cfg.amount.Keys);
      new;
      hide Init, Zeros, Empties, Within;
      FillServiceTable();
      FillResourceTables();
      WithinEmpties(cfg.amount.Keys);
      WithinEmpties(cfg.check);
      if cfg.Valid() {
        TablesInit(Value());
      }
    }

    method FillServiceTable()
      requires connectionStats == map[]
      modifies this`connectionStats
      ensures connectionStats == map s | s in cfg.requirements :: Stats(0, 0)
    {
      var services := cfg.requirements.Keys;
      while services != {}
        invariant services <= cfg.requirements.Keys
        invariant connectionStats == map s | s in cfg.requirements.Keys - services :: Stats(0, 0)
        decreases services
      {
        var s :| s in services;
        connectionStats := connectionStats[s := Stats(0, 0)];
        services := services - {s};
      }
    }

    method FillResourceTables()
      requires resourcesInUse == resourcesReserved == resourcesAvailable == map[]
      requires changeChans == firstChans == map[] && cfg.check <= cfg.amount.Keys
      modifies this`resourcesInUse, this`resourcesReserved, this`resourcesAvailable, this`changeChans, this`firstChans
      ensures resourcesInUse == resourcesReserved == resourcesAvailable == Zeros(cfg.amount.Keys)
      ensures changeChans == Empties(cfg.amount.Keys) && firstChans == Empties(cfg.check)
    {
      var names := cfg.amount.Keys;
      ghost var done: set<Resource> := {};
      assert Zeros({}) == map[] && Empties({}) == map[];
      hide Zeros, Empties;
      while names != {}
        invariant names <= cfg.amount.Keys && done == cfg.amount.Keys - names
        invariant resourcesInUse == resourcesReserved == resourcesAvailable == Zeros(done)
        invariant changeChans == Empties(done) && firstChans == Empties(done * cfg.check)
        decreases names
      {
        var r :| r in names;
        resourcesAvailable, resourcesInUse, resourcesReserved :=
          resourcesAvailable[r := 0], resourcesInUse[r := 0], resourcesReserved[r := 0];
        changeChans := changeChans[r := map[]];
        if r in cfg.check {
          firstChans := firstChans[r := map[]];
        }
        TablesGrow(done, cfg.check, r);
        names, done := names - {r}, done + {r};
      }
      assert done == cfg.amount.Keys;
      assert done * cfg.check == cfg.check;
    }

    // -------------------------------------------------------------- ledger

    method ReleaseResources(used: map<Resource, int>)
      modifies this`resourcesInUse
      ensures resourcesInUse == Minus(old(resourcesInUse), used)
    {
      var todo := used.Keys;
      while todo != {}
        invariant todo <= used.Keys
        invariant resourcesInUse.Keys == old(resourcesInUse).Keys + (used.Keys - todo)
        invariant forall r :: Get(resourcesInUse, r) ==
                    Get(old(resourcesInUse), r) - if r in used && r !in todo then used[r] else 0
        decreases todo
      {
        var r :| r in todo;
        resourcesInUse := resourcesInUse[r := Get(resourcesInUse, r) - used[r]];
        todo := todo - {r};
      }
      assert forall r :: r in resourcesInUse ==> resourcesInUse[r] == Get(resourcesInUse, r);
    }

    method ReleaseReservedResources(reserved: map<Resource, int>)
      modifies this`resourcesReserved
      ensures resourcesReserved == Minus(old(resourcesReserved), reserved)
    {
      var todo := reserved.Keys;
      while todo != {}
        invariant todo <= reserved.Keys
        invariant resourcesReserved.Keys == old(resourcesReserved).Keys + (reserved.Keys - todo)
        invariant forall r :: Get(resourcesReserved, r) ==
                    Get(old(resourcesReserved), r) - if r in reserved && r !in todo then reserved[r] else 0
        decreases todo
      {
        var r :| r in todo;
        resourcesReserved := resourcesReserved[r := Get(resourcesReserved, r) - reserved[r]];
        todo := todo - {r};
      }
      assert forall r :: r in resourcesReserved ==> resourcesReserved[r] == Get(resourcesReserved, r);
    }

    // -------------------------------------------------------------- notification

    /** A non-blocking send to every listener: it returns whether or not their channels are full. */
    method SendSignalToChannels(listeners: map<Service, nat>, v: bool)
      requires forall s :: s in listeners ==> listeners[s] < |channels|
      modifies this`channels
      ensures channels == Fill(old(channels), listeners.Values, v)
    {
      var todo := listeners.Keys;
      ghost var sent: set<nat> := {};
      FillNothing(channels, v);
      while todo != {}
        invariant todo <= listeners.Keys
        invariant channels == Fill(old(channels), sent, v)
        invariant sent == set s | s in listeners && s !in todo :: listeners[s]
        decreases todo
      {
        var s :| s in todo;
        var k := listeners[s];
        if channels[k].value.None? {
          channels := channels[k := channels[k].(value := Some(v))];
        }
        todo, sent := todo - {s}, sent + {k};
      }
      assert sent == listeners.Values;
    }

    method BroadcastResourceChanges(rs: set<Resource>, v: bool)
      requires Valid()
      modifies this`channels
      ensures Valid() && Value() == Broadcast(old(Value()), rs, v)
    {
      var todo := rs;
      ghost var done: set<Resource> := {};
      FillNothing(channels, v);
      assert Listeners(changeChans, {}) == {};
      while todo != {}
        invariant done == rs - todo && todo <= rs
        invariant |channels| == |old(channels)| && channels == Fill(old(channels), Listeners(changeChans, done), v)
        decreases todo
      {
        var r :| r in todo;
        ListenersGrow(changeChans, done, r);
        if r in changeChans {
          FillTwice(old(channels), Listeners(changeChans, done), changeChans[r].Values, v);
          SendSignalToChannels(changeChans[r], v);
        } else {
          assert Listeners(changeChans, done) + {} == Listeners(changeChans, done);
        }
        todo, done := todo - {r}, done + {r};
      }
      assert done == rs;
    }

    method BroadcastFirstChange(r: Resource)
      requires Valid()
      modifies this`channels
      ensures Valid() && channels == Fill(old(channels), Listeners(firstChans, {r}), true)
    {
      OneResource(firstChans, r);
      FillNothing(channels, true);
      if r in firstChans {
        SendSignalToChannels(firstChans[r], true);
      }
    }

    method BroadcastResourceChange(r: Resource, v: bool)
      requires Valid()
      modifies this`channels
      ensures Valid() && channels == Fill(old(channels), Listeners(changeChans, {r}), v)
    {
      OneResource(changeChans, r);
      FillNothing(channels, v);
      if r in changeChans {
        SendSignalToChannels(changeChans[r], v);
      }
    }

    method RegisterForChange(r: Resource, s: Service) returns (ch: nat)
      requires Valid()
      modifies this`channels, this`changeChans
      ensures Valid() && ch == |old(channels)| && Value() == Enlist(old(Value()), r, s)
    {
      ch := |channels|;
      WithinRegister(changeChans, ch, r, s);
      WithinRegister(firstChans, ch, r, s);
      hide Within, Register;
      channels := channels + [Channel(ChangeKey(r, s), None)];
      changeChans := Register(changeChans, r, s, ch);
    }

    method Receive(k: nat) returns (v: bool)
      requires Valid() && k < |channels| && channels[k].value.Some?
      modifies this`channels
      ensures Valid() && v == old(channels[k].value.value) && Value() == Take(old(Value()), k)
    {
      v := channels[k].value.value;
      channels := channels[k := channels[k].(value := None)];
    }

    /** Whether any service is registered for a change on the resource. */
    method ResourceHasWaiters(r: Resource) returns (some: bool)
      ensures some <==> exists s :: Entry(changeChans, r, s).Some? || Entry(firstChans, r, s).Some?
    {
      some := (r in changeChans && |changeChans[r]| > 0) || (r in firstChans && |firstChans[r]| > 0);
      NonEmpty(changeChans, r);
      NonEmpty(firstChans, r);
    }

    method BroadcastCheck(r: Resource, amountChanged: bool)
      requires Valid()
      modifies this`channels
      ensures Valid()
      ensures channels == CheckSignals(old(channels), firstChans, changeChans, r, amountChanged)
    {
      hide Fill, Listeners;
      BroadcastFirstChange(r);
      if amountChanged {
        BroadcastResourceChange(r, false);
      }
    }

    /** Cache a measurement. */
    method CacheAmount(r: Resource, amount: int) returns (amountChanged: bool)
      requires Valid() && r in resourcesAvailable
      modifies this`resourcesAvailable, this`publishing
      ensures Valid() && Value() == Measured(old(Value()), r, amount)
      ensures amountChanged == (old(resourcesAvailable[r]) != amount)
    {
      amountChanged := Get(resourcesAvailable, r) != amount;
      if amountChanged {
        resourcesAvailable := resourcesAvailable[r := amount];
      }
      publishing := publishing[r := amountChanged];
      assert resourcesAvailable == old(resourcesAvailable)[r := amount];
    }

    /** Broadcast a measurement, and report whether anybody was registered. */
    method BroadcastAmount(r: Resource, amountChanged: bool) returns (hadListeners: bool)
      requires Valid() && r in publishing && publishing[r] == amountChanged
      modifies this`channels, this`publishing, this`checks
      ensures Valid() && Value() == Published(old(Value()), r)
      ensures hadListeners <==> exists s :: Entry(changeChans, r, s).Some? || Entry(firstChans, r, s).Some?
    {
      hide Entry, Within;
      BroadcastCheck(r, amountChanged);
      hadListeners := ResourceHasWaiters(r);
      checks := checks[r := Get(checks, r) + 1];
      publishing := publishing - {r};
    }

    static lemma OneResource(reg: Registry, r: Resource)
      ensures Listeners(reg, {r}) == if r in reg then reg[r].Values else {}
    {
      ListenersGrow(reg, {}, r);
      assert {} + {r} == {r} && Listeners(reg, {}) == {};
    }

    static lemma NonEmpty(reg: Registry, r: Resource)
      ensures r in reg && |reg[r]| > 0 <==> exists s :: Entry(reg, r, s).Some?
    {
      if r in reg && |reg[r]| > 0 {
        assert |reg[r].Keys| > 0;
        var s :| s in reg[r].Keys;
        assert Entry(reg, r, s).Some?;
      }
      if s :| Entry(reg, r, s).Some? {
        assert s in reg[r].Keys;
        assert reg[r].Keys != {};
        assert |reg[r].Keys| > 0;
      }
    }

    // -------------------------------------------------------------- instances

    /** cleanUpStoppedServiceWhenServiceMutexIsLocked. */
    method CleanUpStoppedService(i: nat, shouldReleaseResources: bool)
      requires Valid() && i < |instances|
      modifies this
      ensures Valid()
      ensures Value() == if shouldReleaseResources then CleanUp(old(Value()), i) else old(Value())
    {
      if !shouldReleaseResources || instances[i].released {
        return;
      }
      var x := instances[i];
      var used := cfg.Requirement(x.svc);
      instances := instances[i := x.(released := true, timer := false)];
      if x.marked {
        ReleaseResources(used);
      }
      if x.svc in runningServices && runningServices[x.svc] == i {
        runningServices := runningServices - {x.svc};
      }
      BroadcastResourceChanges(used.Keys, true);
    }

    method Lock(i: nat, me: nat)
      requires Valid() && i < |instances| && instances[i].holder.None?
      modifies this`instances
      ensures Valid() && Value() == Acquire(old(Value()), i, me)
    {
      instances := instances[i := instances[i].(holder := Some(me))];
    }

    method Unlock(i: nat)
      requires Valid() && i < |instances|
      modifies this`instances
      ensures Valid() && Value() == Free(old(Value()), i)
    {
      instances := instances[i := instances[i].(holder := None)];
    }

    /** The record of a service about to start, with its own manageMutex taken. */
    method InsertInstance(s: Service, me: nat, now: int) returns (b: nat)
      requires Valid()
      modifies this`instances, this`runningServices
      ensures Valid() && b == |old(instances)| && Value() == Insert(old(Value()), s, me, now)
    {
      b := |instances|;
      instances := instances + [Instance(s, Some(me), true, false, false, false, false, false, now, false, checks)];
      runningServices := runningServices[s := b];
    }

    method MarkReserved(b: nat)
      requires Valid() && b < |instances|
      modifies this`instances
      ensures Valid() && Value() == Mark(old(Value()), b)
    {
      instances := instances[b := instances[b].(waiting := false, marked := true)];
    }

    method RecordCommand(b: nat)
      requires Valid() && b < |instances|
      modifies this`instances
      ensures Valid() && Value() == SetCommand(old(Value()), b)
    {
      instances := instances[b := instances[b].(command := true)];
    }

    /** releaseReservedResources for a service's requirements. */
    method ReturnShare(s: Service)
      requires Valid()
      modifies this`resourcesReserved
      ensures Valid() && Value() == GiveBack(old(Value()), s)
    {
      ReleaseReservedResources(cfg.Requirement(s));
    }

    /** The critical section that ends a successful start. */
    method FinishStart(b: nat)
      requires Valid() && b < |instances|
      modifies this`instances, this`resourcesReserved
      ensures Valid() && Value() == Model.MakeReady(old(Value()), b)
    {
      hide Within, Minus;
      ReleaseReservedResources(cfg.Requirement(instances[b].svc));
      instances := instances[b := instances[b].(ready := true)];
      instances := instances[b := instances[b].(timer := true)];
      assert instances == old(instances)[b := old(instances)[b].(ready := true, timer := true)];
    }

    /** History: checks completed before this eviction no longer count for the reservation of `b`. */
    method ForgetChecks(b: nat)
      requires Valid() && b < |instances|
      modifies this`instances
      ensures Valid() && Value() == ResetSince(old(Value()), b)
    {
      instances := instances[b := instances[b].(since := checks)];
    }

    /** canBeStopped: take the manageMutex if it is free, look at the counter, give it back. */
    method CanBeStopped(s: Service, i: nat, me: nat) returns (stoppable: bool)
      requires Valid() && i < |instances|
      modifies this`instances
      ensures Value() == old(Value()) && stoppable == Model.CanBeStopped(Value(), s, i)
    {
      if instances[i].holder.Some? {
        return false;
      }
      instances := instances[i := instances[i].(holder := Some(me))];
      stoppable := s !in connectionStats || connectionStats[s].proxied == 0;
      instances := instances[i := instances[i].(holder := None)];
      hide Within;
      assert instances == old(instances);
    }

    /** incrementConnection: `announced` says whether all connections are closed, in which case
        the waiters on the service's resources are told. */
    method IncrementConnection(s: Service, proxied: int, waiting: int) returns (announced: bool)
      requires Valid()
      modifies this
      ensures Valid() && announced == (StatsOf(Count(old(Value()), s, proxied, waiting), s) == Stats(0, 0))
      ensures Value() == if announced then Broadcast(Count(old(Value()), s, proxied, waiting),
              cfg.Requirement(s).Keys, true)
                         else Count(old(Value()), s, proxied, waiting)
    {
      var stats := if s in connectionStats then connectionStats[s] else Stats(0, 0);
      stats := Stats(stats.proxied + proxied, stats.waiting + waiting);
      if stats.proxied < 0 || stats.waiting < 0 {
        if stats.proxied < 0 {
          stats := stats.(proxied := 0);
        }
        if stats.waiting < 0 {
          stats := stats.(waiting := 0);
        }
      }
      connectionStats := connectionStats[s := stats];
      announced := stats.proxied == 0 && stats.waiting == 0;
      if announced {
        BroadcastResourceChanges(cfg.Requirement(s).Keys, true);
      }
    }

    // -------------------------------------------------------------- the passes of a reservation

    /** handleNotEnoughResource: drop the service's first-check registrations. */
    method DropFirstRegistrations(rs: set<Resource>, s: Service)
      modifies this`firstChans
      ensures firstChans == Unregister(old(firstChans), rs, s)
    {
      var todo := firstChans.Keys * rs;
      while todo != {}
        invariant todo <= old(firstChans).Keys * rs && firstChans.Keys == old(firstChans).Keys
        invariant firstChans == Unregister(old(firstChans), rs - todo, s)
        decreases todo
      {
        var r :| r in todo;
        firstChans := firstChans[r := firstChans[r] - {s}];
        todo := todo - {r};
      }
    }

    method DropChangeRegistrations(rs: set<Resource>, s: Service)
      modifies this`changeChans
      ensures changeChans == Unregister(old(changeChans), rs, s)
    {
      var todo := changeChans.Keys * rs;
      while todo != {}
        invariant todo <= old(changeChans).Keys * rs && changeChans.Keys == old(changeChans).Keys
        invariant changeChans == Unregister(old(changeChans), rs - todo, s)
        decreases todo
      {
        var r :| r in todo;
        changeChans := changeChans[r := changeChans[r] - {s}];
        todo := todo - {r};
      }
    }

    /** The first loop of findFirstMissingResourceWhenServiceMutexIsLocked. */
    method FindStaticShortage(s: Service) returns (missing: Option<Resource>)
      ensures missing.Some? ==> StaticShort(Value(), s, missing.value)
      ensures missing.None? ==> StaticEnough(Value(), s)
    {
      var need := cfg.Requirement(s);
      var todo := need.Keys;
      while todo != {}
        invariant todo <= need.Keys
        invariant forall r :: r in need && r !in todo ==> !StaticShort(Value(), s, r)
        decreases todo
      {
        var r :| r in todo;
        todo := todo - {r};
        if r !in cfg.check && need[r] > Get(cfg.amount, r) - Get(resourcesInUse, r) {
          return Some(r);
        }
      }
      return None;
    }

    /** The second loop when cached measurements are trusted. */
    method FindMeasuredShortage(s: Service) returns (missing: Option<Resource>)
      ensures missing.Some? ==> MeasuredShort(Value(), s, missing.value)
      ensures missing.None? ==> MeasuredEnough(Value(), s)
    {
      var need := cfg.Requirement(s);
      var todo := need.Keys;
      while todo != {}
        invariant todo <= need.Keys
        invariant forall r :: r in need && r !in todo ==> !MeasuredShort(Value(), s, r)
        decreases todo
      {
        var r :| r in todo;
        todo := todo - {r};
        if r in cfg.check && !(need[r] <= Get(resourcesAvailable, r) - Get(resourcesReserved, r)) {
          return Some(r);
        }
      }
      return None;
    }

    method AskForMeasurement(r: Resource, s: Service) returns (id: nat)
      requires Valid()
      modifies this`channels, this`firstChans
      ensures Valid() && id == |old(channels)|
      ensures channels == old(channels) + [Channel(FirstKey(r, s), None)]
      ensures firstChans == Register(old(firstChans), r, s, id)
    {
      id := |channels|;
      WithinRegister(firstChans, id, r, s);
      WithinRegister(changeChans, id, r, s);
      hide Register, Within;
      channels := channels + [Channel(FirstKey(r, s), None)];
      firstChans := Register(firstChans, r, s, id);
    }

    /** The second loop when fresh measurements are needed: one new channel per measured resource. */
    method AskForMeasurements(s: Service) returns (pending: map<Resource, nat>)
      requires Valid()
      modifies this`channels, this`firstChans
      ensures Valid() && FreshChannels(old(Value()), s, pending) && Asked(old(Value()), s, pending, Value())
    {
      hide Asked, Numbered, Register, Valid;
      ghost var before := Value();
      pending := map[];
      AskedNothing(before, s);
      var todo := cfg.Measured(s);
      while todo != {}
        invariant Valid() && todo <= cfg.Measured(s) && pending.Keys == cfg.Measured(s) - todo
        invariant Numbered(|before.channels|, pending) && Asked(before, s, pending, Value())
        decreases todo
      {
        var r :| r in todo;
        ghost var asked := Value();
        var id := AskForMeasurement(r, s);
        AskedMore(before, s, pending, asked, r, Value());
        pending := pending[r := id];
        todo := todo - {r};
      }
      AskedAll(before, s, pending);
    }

    /** findFirstMissingResourceWhenServiceMutexIsLocked: a pass as the step machine has it. */
    method FindFirstMissingResource(s: Service, recheck: bool)
      returns (missing: Option<Resource>, pending: map<Resource, nat>)
      requires Valid()
      modifies this`channels, this`firstChans
      ensures Valid()
      ensures missing.Some? ==> pending == map[] && PassLacks(old(Value()), s, recheck, missing.value)
                                && Value() == old(Value()).(first := Unregister(old(firstChans), old(firstChans).Keys,
                                   s))
      ensures missing.None? && pending == map[] ==> PassCommits(old(Value()), s, recheck) && Value() == old(Value())
      ensures missing.None? && pending != map[] ==>
                PassAsks(old(Value()), s, recheck) && FreshChannels(old(Value()), s, pending)
                && Asked(old(Value()), s, pending, Value())
    {
      pending := map[];
      missing := FindStaticShortage(s);
      if missing.Some? {
        DropFirstRegistrations(firstChans.Keys, s);
        return;
      }
      if !recheck {
        missing := FindMeasuredShortage(s);
        if missing.Some? {
          DropFirstRegistrations(firstChans.Keys, s);
        }
      } else if cfg.Measured(s) != {} {
        pending := AskForMeasurements(s);
        assert pending.Keys != {};
      }
    }

    /** The commit of a successful pass. */
    method CommitReservation(b: nat)
      requires Valid() && b < |instances|
      modifies this
      ensures Valid() && Value() == Commit(old(Value()), b)
    {
      var s := instances[b].svc;
      var need := cfg.Requirement(s);
      DropChangeRegistrations(need.Keys, s);
      Reserve(need);
      instances := instances[b := instances[b].(committed := true)];
    }

    method Reserve(need: map<Resource, int>)
      modifies this`resourcesInUse, this`resourcesReserved
      ensures resourcesInUse == Plus(old(resourcesInUse), need)
              && resourcesReserved == Plus(old(resourcesReserved), need)
    {
      var todo := need.Keys;
      ghost var done: set<Resource> := {};
      hide Added;
      AddedNone(resourcesInUse, need);
      AddedNone(resourcesReserved, need);
      while todo != {}
        invariant todo <= need.Keys
        invariant done == need.Keys - todo
        invariant Added(old(resourcesInUse), resourcesInUse, need, done)
        invariant Added(old(resourcesReserved), resourcesReserved, need, done)
        decreases todo
      {
        var r :| r in todo;
        AddedOne(old(resourcesInUse), resourcesInUse, need, done, r);
        AddedOne(old(resourcesReserved), resourcesReserved, need, done, r);
        resourcesInUse := resourcesInUse[r := Get(resourcesInUse, r) + need[r]];
        resourcesReserved := resourcesReserved[r := Get(resourcesReserved, r) + need[r]];
        todo, done := todo - {r}, done + {r};
      }
      assert done == need.Keys;
      AddedAll(old(resourcesInUse), resourcesInUse, need);
      AddedAll(old(resourcesReserved), resourcesReserved, need);
    }

    /** findEarliestLastUsedServiceUsingResource: a running minimum over the registered services. */
    method FindEarliestLastUsed(s: Service, r: Resource, now: int, me: nat) returns (earliest: Option<Service>)
      requires Valid()
      modifies this`instances
      ensures Value() == old(Value())
      ensures earliest.Some? ==> IsVictim(Value(), s, r, now, earliest.value)
      ensures earliest.None? ==> forall v :: !Eligible(Value(), s, r, now, v)
    {
      var earliestTime := now;
      earliest := None;
      var todo := runningServices.Keys;
      while todo != {}
        invariant Value() == old(Value()) && todo <= runningServices.Keys
        invariant earliest.None? ==> earliestTime == now
        invariant earliest.Some? ==> Eligible(Value(), s, r, now, earliest.value)
                                     && LastUsed(Value(), earliest.value) == earliestTime
        invariant forall v :: v in runningServices && v !in todo && Eligible(Value(), s, r, now, v) ==>
                    earliestTime <= LastUsed(Value(), v) && earliest.Some?
        decreases todo
      {
        var v :| v in todo;
        todo := todo - {v};
        if v == s || cfg.Need(v, r) == 0 {
          continue;
        }
        var stoppable := CanBeStopped(v, runningServices[v], me);
        if !stoppable {
          continue;
        }
        var lastUsed := instances[runningServices[v]].lastUsed;
        if lastUsed < earliestTime {
          earliest, earliestTime := Some(v), lastUsed;
        }
      }
    }

    // -------------------------------------------------------------- status

    /** The connection counters of the listed services, under connectionStatsMutex. */
    method SnapshotConnections(services: seq<Service>) returns (stats: map<Service, Stats>)
      ensures stats == map s | s in services :: StatsOf(Value(), s)
    {
      stats := map[];
      for n := 0 to |services|
        invariant stats == map s | s in services[..n] :: StatsOf(Value(), s)
      {
        assert services[..n + 1] == services[..n] + [services[n]];
        var s := services[n];
        stats := stats[s := if s in connectionStats then connectionStats[s] else Stats(0, 0)];
      }
      assert services[..|services|] == services;
    }

    /** The loops of handleStatus under the serviceMutex, with the connection snapshot taken before. */
    method HandleStatus(services: seq<Service>, stats: map<Service, Stats>)
      returns (statuses: seq<ServiceStatus>, resources: map<Resource, ResourceUsage>)
      requires Valid() && forall s :: s in services ==> s in stats
      ensures |statuses| == |services|
      ensures forall i :: 0 <= i < |services| ==> statuses[i] == StatusOf(Value(), stats, services[i])
      ensures resources.Keys == cfg.amount.Keys
      ensures forall r :: r in resources ==> resources[r] == UsageOf(Value(), services, r)
    {
      resources := ReportResources();
      statuses := [];
      for n := 0 to |services|
        invariant |statuses| == n && forall i :: 0 <= i < n ==> statuses[i] == StatusOf(Value(), stats, services[i])
        invariant resources.Keys == cfg.amount.Keys
        invariant forall r :: r in resources ==> resources[r] == UsageOf(Value(), services[..n], r)
      {
        var status := ReportService(services[n], stats);
        assert services[..n + 1] == services[..n] + [services[n]];
        if services[n] in runningServices {
          resources := AddUsage(resources, services[n], services[..n]);
        } else {
          assert forall r :: UsageOf(Value(), services[..n + 1], r) == UsageOf(Value(), services[..n], r) by {
            forall r ensures UsageBy(Value(), services[..n + 1], r) == UsageBy(Value(), services[..n], r) {
              assert services[..n + 1] == services[..n] + [services[n]];
            }
          }
        }
        statuses := statuses + [status];
      }
      assert services[..|services|] == services;
    }

    method ReportResources() returns (resources: map<Resource, ResourceUsage>)
      ensures resources.Keys == cfg.amount.Keys
      ensures forall r :: r in resources ==> resources[r] == UsageOf(Value(), [], r)
    {
      resources := map[];
      var names := cfg.amount.Keys;
      while names != {}
        invariant names <= cfg.amount.Keys && resources.Keys == cfg.amount.Keys - names
        invariant forall r :: r in resources ==> resources[r] == UsageOf(Value(), [], r)
        decreases names
      {
        var r :| r in names;
        var free := if r !in cfg.check then cfg.amount[r] - Get(resourcesInUse, r) else Get(resourcesAvailable, r);
        var reserved, inUse := Get(resourcesReserved, r), Get(resourcesInUse, r);
        resources := resources[r := ResourceUsage(cfg.amount[r], reserved, inUse, free, map[])];
        names := names - {r};
      }
    }

    method ReportService(s: Service, stats: map<Service, Stats>) returns (status: ServiceStatus)
      requires Valid() && s in stats
      ensures status == StatusOf(Value(), stats, s)
    {
      status := ServiceStatus(s, Stopped, stats[s].waiting, stats[s].proxied, None, cfg.Requirement(s));
      if s in runningServices {
        var x := instances[runningServices[s]];
        status := status.(lastUsed := Some(x.lastUsed));
        if x.ready {
          status := status.(state := Running);
        } else if x.waiting {
          status := status.(state := WaitingForResources);
        } else {
          status := status.(state := StartingUp);
        }
      }
    }

    static lemma UsageAdds(m: Shared, seen: seq<Service>, s: Service, r: Resource)
      requires s in m.running
      ensures UsageBy(m, seen + [s], r)
              == if r in m.cfg.Requirement(s) then UsageBy(m, seen, r)[s := m.cfg.Requirement(s)[r]]
                 else UsageBy(m, seen, r)
    {
    }

    /** The amounts of a registered service are entered under its name. */
    method AddUsage(before: map<Resource, ResourceUsage>, s: Service, ghost seen: seq<Service>)
      returns (resources: map<Resource, ResourceUsage>)
      requires s in runningServices && forall r :: r in before ==> before[r] == UsageOf(Value(), seen, r)
      ensures resources.Keys == before.Keys
      ensures forall r :: r in resources ==> resources[r] == UsageOf(Value(), seen + [s], r)
    {
      resources := before;
      var need := cfg.Requirement(s);
      var todo := need.Keys;
      while todo != {}
        invariant todo <= need.Keys && resources.Keys == before.Keys
        invariant forall r :: r in resources ==>
                    resources[r]
                    == if r in need && r !in todo then before[r].(usage := before[r].usage[s := need[r]])
                       else before[r]
        decreases todo
      {
        var r :| r in todo;
        if r in resources {
          resources := resources[r := resources[r].(usage := resources[r].usage[s := need[r]])];
        }
        todo := todo - {r};
      }
      forall r | r in resources ensures resources[r] == UsageOf(Value(), seen + [s], r) {
        UsageAdds(Value(), seen, s, r);
      }
    }
  }
}
