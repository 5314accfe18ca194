/** Every operation on the shared values keeps `SharedOk` and stays within `Guar`. */
module Operations {
  import opened Model
  import opened Machine
  import opened Invariant

  /** `m'` is a legal successor of `m` for goroutine `t`. */
  ghost predicate Legal(t: nat, m: Shared, m': Shared) {
    SharedOk(m') && Guar(t, m, m')
  }

  lemma GuarTrans(t: nat, m: Shared, m1: Shared, m2: Shared)
    requires Guar(t, m, m1) && Guar(t, m1, m2) && m1.channels == m.channels && |m1.instances| == |m.instances|
    requires forall i :: 0 <= i < |m.instances| && m1.instances[i].holder == Some(t) ==>
               m.instances[i].holder == Some(t)
    requires forall s :: Owns(m1, t, s) ==> Owns(m, t, s)
    ensures Guar(t, m, m2)
  {
    forall i | 0 <= i < |m.instances| ensures InstanceGuar(t, m.instances[i], m2.instances[i]) {
      assert InstanceGuar(t, m.instances[i], m1.instances[i]);
      assert InstanceGuar(t, m1.instances[i], m2.instances[i]);
    }
    forall r ensures Get(m.checks, r) <= Get(m2.checks, r) {
      assert Get(m.checks, r) <= Get(m1.checks, r) <= Get(m2.checks, r);
    }
    forall k | 0 <= k < |m.channels| ensures ChannelGuar(m, m2, t, m.channels[k], m2.channels[k]) {
      assert ChannelGuar(m1, m2, t, m1.channels[k], m2.channels[k]);
      assert m1.channels[k].key.FirstKey? ==> Get(m.checks, m.channels[k].key.r) <= Get(m1.checks, m.channels[k].key.r);
    }
    forall r, s | Entry(m2.change, r, s) != Entry(m.change, r, s) ensures Owns(m, t, s) {
      if Entry(m1.change, r, s) == Entry(m.change, r, s) {
        assert Owns(m1, t, s);
      }
    }
    forall r, s | Entry(m2.first, r, s) != Entry(m.first, r, s) ensures Owns(m, t, s) {
      if Entry(m1.first, r, s) == Entry(m.first, r, s) {
        assert Owns(m1, t, s);
      }
    }
  }

  // ---------------------------------------------------------------- one instance

  /** Registrations stay in order when no reservation in flight ends and channels keep their keys. */
  lemma WaitersStay(m: Shared, m': Shared)
    requires WaitersOk(m) && m'.change == m.change && m'.first == m.first
    requires |m.channels| <= |m'.channels|
    requires forall k :: 0 <= k < |m.channels| ==> m'.channels[k].key == m.channels[k].key
    requires forall s :: Reserving(m, s) ==> Reserving(m', s)
    ensures WaitersOk(m')
  {
  }

  lemma InstancesStay(m: Shared, m': Shared, i: nat, x: Instance)
    requires forall k :: 0 <= k < |m.instances| ==> InstanceOk(m, m.instances[k])
    requires i < |m.instances| && m'.instances == m.instances[i := x] && InstanceOk(m', x)
    requires forall r :: Get(m.checks, r) <= Get(m'.checks, r)
    ensures forall k :: 0 <= k < |m'.instances| ==> InstanceOk(m', m'.instances[k])
  {
    forall k | 0 <= k < |m'.instances| ensures InstanceOk(m', m'.instances[k]) {
      if k != i {
        AgeOk(m, m', m.instances[k]);
      }
    }
  }

  lemma AgeOk(m: Shared, m': Shared, x: Instance)
    requires InstanceOk(m, x) && forall r :: Get(m.checks, r) <= Get(m'.checks, r)
    ensures InstanceOk(m', x)
  {
    forall r ensures Get(x.since, r) <= Get(m'.checks, r) {
      assert Get(x.since, r) <= Get(m.checks, r) <= Get(m'.checks, r);
    }
  }

  lemma RegistryStays(m: Shared, m': Shared, i: nat, x: Instance)
    requires RegistryOk(m) && i < |m.instances| && m'.instances == m.instances[i := x]
    requires x.svc == m.instances[i].svc && x.released == m.instances[i].released
    requires m'.running == m.running && m'.cfg == m.cfg
    ensures RegistryOk(m')
  {
  }

  /** An update of one record that neither commits nor releases it. */
  lemma OneInstance(t: nat, m: Shared, i: nat, x: Instance)
    requires SharedOk(m) && i < |m.instances| && InstanceGuar(t, m.instances[i], x) && InstanceOk(m, x)
    requires x.released == m.instances[i].released && x.committed == m.instances[i].committed
    ensures Legal(t, m, SetInstance(m, i, x))
  {
    assert Guar(t, m, SetInstance(m, i, x));
    assert SharedOk(SetInstance(m, i, x)) by {
      var m' := SetInstance(m, i, x);
      WaitersStay(m, m');
      InstancesStay(m, m', i, x);
      RegistryStays(m, m', i, x);
      hide WaitersOk, RegistryOk, InstanceOk, Reserving;
    }
    hide SharedOk, Guar;
  }

  lemma AcquireLegal(t: nat, m: Shared, i: nat)
    requires SharedOk(m) && i < |m.instances| && m.instances[i].holder.None?
    ensures Legal(t, m, Acquire(m, i, t))
  {
    assert InstanceOk(m, m.instances[i]);
    OneInstance(t, m, i, m.instances[i].(holder := Some(t)));
  }

  lemma FreeLegal(t: nat, m: Shared, i: nat)
    requires SharedOk(m) && i < |m.instances| && m.instances[i].holder == Some(t) && Settled(m.instances[i])
    ensures Legal(t, m, Free(m, i))
  {
    assert InstanceOk(m, m.instances[i]);
    OneInstance(t, m, i, m.instances[i].(holder := None));
  }

  lemma TouchLegal(t: nat, m: Shared, s: Service, j: nat, now: int)
    requires SharedOk(m)
    ensures Legal(t, m, TouchIf(m, s, j, now))
  {
    if j < |m.instances| && m.instances[j].svc == s {
      assert InstanceOk(m, m.instances[j]);
      OneInstance(t, m, j, m.instances[j].(lastUsed := now));
    } else {
      SameLegal(t, m);
    }
  }

  lemma SameLegal(t: nat, m: Shared)
    requires SharedOk(m)
    ensures Legal(t, m, m)
  {
  }

  lemma MarkLegal(t: nat, m: Shared, b: nat)
    requires SharedOk(m) && b < |m.instances| && m.instances[b].holder == Some(t) && m.instances[b].committed
    ensures Legal(t, m, Mark(m, b))
  {
    assert InstanceOk(m, m.instances[b]);
    OneInstance(t, m, b, m.instances[b].(waiting := false, marked := true));
  }

  lemma SetCommandLegal(t: nat, m: Shared, b: nat)
    requires SharedOk(m) && b < |m.instances| && m.instances[b].holder == Some(t) && m.instances[b].marked
    ensures Legal(t, m, SetCommand(m, b))
  {
    assert InstanceOk(m, m.instances[b]);
    OneInstance(t, m, b, m.instances[b].(command := true));
  }

  lemma ResetSinceLegal(t: nat, m: Shared, b: nat)
    requires SharedOk(m) && b < |m.instances| && m.instances[b].holder == Some(t)
    ensures Legal(t, m, ResetSince(m, b))
  {
    assert InstanceOk(m, m.instances[b]);
    OneInstance(t, m, b, m.instances[b].(since := m.checks));
  }

  // ---------------------------------------------------------------- ledger and counters

  /** An update outside the instances, the registry and the registrations. */
  lemma SideUpdate(m: Shared, m': Shared)
    requires SharedOk(m) && LedgerKeys(m') && |m'.channels| == |m.channels|
    requires m' == m.(inUse := m'.inUse, reserved := m'.reserved, available := m'.available, stats := m'.stats,
                      publishing := m'.publishing, channels := m'.channels, checks := m'.checks)
    requires forall k :: 0 <= k < |m.channels| ==> m'.channels[k].key == m.channels[k].key
    requires forall r :: Get(m.checks, r) <= Get(m'.checks, r)
    ensures SharedOk(m')
  {
    assert forall s :: Reserving(m, s) ==> Reserving(m', s);
    WaitersStay(m, m');
    forall k | 0 <= k < |m'.instances| ensures InstanceOk(m', m'.instances[k]) {
      assert InstanceOk(m, m.instances[k]);
      AgeOk(m, m', m.instances[k]);
    }
  }

  lemma QuietLegal(t: nat, m: Shared, m': Shared)
    requires SharedOk(m) && LedgerKeys(m')
    requires m' == m.(inUse := m'.inUse, reserved := m'.reserved, available := m'.available, stats := m'.stats,
                      publishing := m'.publishing)
    ensures Legal(t, m, m')
  {
    SideUpdate(m, m');
  }

  lemma RequirementDeclared(c: Config, s: Service)
    requires c.Valid()
    ensures c.Requirement(s).Keys <= c.amount.Keys
    ensures forall r :: 0 <= c.Need(s, r)
  {
  }

  lemma GiveBackLegal(t: nat, m: Shared, s: Service)
    requires SharedOk(m)
    ensures Legal(t, m, GiveBack(m, s))
  {
    RequirementDeclared(m.cfg, s);
    assert Minus(m.reserved, m.cfg.Requirement(s)).Keys == m.cfg.amount.Keys;
    QuietLegal(t, m, GiveBack(m, s));
  }

  lemma CountLegal(t: nat, m: Shared, s: Service, p: int, w: int)
    requires SharedOk(m)
    ensures Legal(t, m, Count(m, s, p, w))
  {
    QuietLegal(t, m, Count(m, s, p, w));
  }

  lemma MakeReadyLegal(t: nat, m: Shared, b: nat)
    requires SharedOk(m) && b < |m.instances| && m.instances[b].holder == Some(t) && m.instances[b].command
    ensures Legal(t, m, MakeReady(m, b))
  {
    var m1 := GiveBack(m, m.instances[b].svc);
    GiveBackLegal(t, m, m.instances[b].svc);
    assert InstanceOk(m1, m1.instances[b]);
    OneInstance(t, m1, b, m.instances[b].(ready := true, timer := true));
    GuarTrans(t, m, m1, MakeReady(m, b));
  }

  lemma MeasuredLegal(t: nat, m: Shared, r: Resource, amount: int)
    requires SharedOk(m) && r in m.cfg.check
    ensures Legal(t, m, Measured(m, r, amount))
  {
    QuietLegal(t, m, Measured(m, r, amount));
  }

  // ---------------------------------------------------------------- channels

  lemma ListenerKey(m: Shared, rs: set<Resource>, k: nat)
    requires WaitersOk(m) && k in Listeners(m.change, rs)
    ensures k < |m.channels| && m.channels[k].key.ChangeKey? && m.channels[k].key.r in rs
  {
    var r, s :| r in rs && r in m.change && s in m.change[r] && m.change[r][s] == k;
    assert Entry(m.change, r, s) == Some(k);
  }

  lemma FirstListenerKey(m: Shared, rs: set<Resource>, k: nat)
    requires WaitersOk(m) && k in Listeners(m.first, rs)
    ensures k < |m.channels| && m.channels[k].key.FirstKey? && m.channels[k].key.r in rs
  {
    var r, s :| r in rs && r in m.first && s in m.first[r] && m.first[r][s] == k;
    assert Entry(m.first, r, s) == Some(k);
  }

  lemma BroadcastLegal(t: nat, m: Shared, rs: set<Resource>, v: bool)
    requires SharedOk(m) && (!v ==> rs <= m.cfg.check)
    ensures Legal(t, m, Broadcast(m, rs, v))
  {
    var m' := Broadcast(m, rs, v);
    SideUpdate(m, m');
    forall k | 0 <= k < |m.channels| ensures ChannelGuar(m, m', t, m.channels[k], m'.channels[k]) {
      if k in Listeners(m.change, rs) {
        ListenerKey(m, rs, k);
      }
    }
  }

  /** The monitor's broadcast: first-check waiters hear of every run, change waiters only of a
      run that changed the amount. */
  lemma PublishedLegal(t: nat, m: Shared, r: Resource)
    requires SharedOk(m) && r in m.cfg.check && r in m.publishing
    ensures Legal(t, m, Published(m, r))
  {
    var m' := Published(m, r);
    SideUpdate(m, m');
    forall k | 0 <= k < |m.channels| ensures ChannelGuar(m, m', t, m.channels[k], m'.channels[k]) {
      PublishedChannel(t, m, r, k);
    }
    assert var m' := Published(m, r);
           && m' == m.(channels := m'.channels, publishing := m'.publishing, checks := m'.checks)
           && |m'.channels| == |m.channels| && forall q :: Get(m.checks, q) <= Get(m'.checks, q) by {
      hide Fill, Listeners;
    }
    hide SharedOk, Published, ChannelGuar;
  }

  lemma PublishedChannel(t: nat, m: Shared, r: Resource, k: nat)
    requires WaitersOk(m) && r in m.cfg.check && r in m.publishing && k < |m.channels|
    ensures ChannelGuar(m, Published(m, r), t, m.channels[k], Published(m, r).channels[k])
  {
    var c, c' := m.channels[k], Published(m, r).channels[k];
    if k in Listeners(m.first, {r}) {
      FirstListenerKey(m, {r}, k);
      assert Get(Published(m, r).checks, r) > Get(m.checks, r);
    } else if k in Listeners(m.change, {r}) {
      ListenerKey(m, {r}, k);
    } else {
      assert c' == c;
    }
  }

  lemma TakeLegal(t: nat, m: Shared, k: nat)
    requires SharedOk(m) && k < |m.channels| && Owns(m, t, m.channels[k].key.svc)
    ensures Legal(t, m, Take(m, k))
  {
    SideUpdate(m, Take(m, k));
  }

  // ---------------------------------------------------------------- registrations

  lemma UnregisterEntry(reg: Registry, rs: set<Resource>, s: Service)
    ensures forall r, q :: Entry(Unregister(reg, rs, s), r, q)
                           == if r in rs && q == s then None else Entry(reg, r, q)
  {
  }

  lemma RegisterEntry(reg: Registry, r: Resource, s: Service, k: nat)
    ensures forall p, q :: Entry(Register(reg, r, s, k), p, q)
                           == if p == r && q == s then Some(k) else Entry(reg, p, q)
  {
  }

  /** An update of the registries and new channels only, by the owner of a reservation. */
  lemma RegistriesLegal(t: nat, m: Shared, m': Shared, s: Service)
    requires SharedOk(m) && Owns(m, t, s)
    requires m' == m.(change := m'.change, first := m'.first, channels := m'.channels)
    requires |m.channels| <= |m'.channels| && m'.channels[..|m.channels|] == m.channels
    requires forall r, q :: q != s ==> Entry(m'.change, r, q) == Entry(m.change, r, q)
    requires forall r, q :: q != s ==> Entry(m'.first, r, q) == Entry(m.first, r, q)
    requires forall r :: Entry(m'.change, r, s).Some? ==>
               Entry(m'.change, r, s).value < |m'.channels|
               && m'.channels[Entry(m'.change, r, s).value].key == ChangeKey(r, s)
    requires forall r :: Entry(m'.first, r, s).Some? ==>
               Entry(m'.first, r, s).value < |m'.channels|
               && m'.channels[Entry(m'.first, r, s).value].key == FirstKey(r, s)
    ensures Legal(t, m, m')
  {
    RegistriesWaiters(t, m, m', s);
    hide Guar, WaitersOk, InstanceOk, Owns, Entry;
  }

  lemma RegistriesWaiters(t: nat, m: Shared, m': Shared, s: Service)
    requires WaitersOk(m) && Owns(m, t, s)
    requires m' == m.(change := m'.change, first := m'.first, channels := m'.channels)
    requires |m.channels| <= |m'.channels| && m'.channels[..|m.channels|] == m.channels
    requires forall r, q :: q != s ==> Entry(m'.change, r, q) == Entry(m.change, r, q)
    requires forall r, q :: q != s ==> Entry(m'.first, r, q) == Entry(m.first, r, q)
    requires forall r :: Entry(m'.change, r, s).Some? ==>
               Entry(m'.change, r, s).value < |m'.channels|
               && m'.channels[Entry(m'.change, r, s).value].key == ChangeKey(r, s)
    requires forall r :: Entry(m'.first, r, s).Some? ==>
               Entry(m'.first, r, s).value < |m'.channels|
               && m'.channels[Entry(m'.first, r, s).value].key == FirstKey(r, s)
    ensures WaitersOk(m')
  {
    assert forall k :: 0 <= k < |m.channels| ==> m'.channels[k] == m'.channels[..|m.channels|][k];
    assert forall q :: Reserving(m, q) ==> Reserving(m', q);
    assert Reserving(m', s);
    hide Entry, Reserving, Owns;
  }

  lemma DropFirstLegal(t: nat, m: Shared, rs: set<Resource>, s: Service)
    requires SharedOk(m) && Owns(m, t, s)
    ensures Legal(t, m, m.(first := Unregister(m.first, rs, s)))
  {
    UnregisterEntry(m.first, rs, s);
    assert m.channels[..|m.channels|] == m.channels;
    RegistriesLegal(t, m, m.(first := Unregister(m.first, rs, s)), s);
  }

  lemma DropChangeLegal(t: nat, m: Shared, rs: set<Resource>, s: Service)
    requires SharedOk(m) && Owns(m, t, s)
    ensures Legal(t, m, m.(change := Unregister(m.change, rs, s)))
  {
    UnregisterEntry(m.change, rs, s);
    assert m.channels[..|m.channels|] == m.channels;
    RegistriesLegal(t, m, m.(change := Unregister(m.change, rs, s)), s);
  }

  lemma EnlistLegal(t: nat, m: Shared, r: Resource, s: Service)
    requires SharedOk(m) && Owns(m, t, s) && NoChange(m, s)
    ensures Legal(t, m, Enlist(m, r, s))
  {
    RegisterEntry(m.change, r, s, |m.channels|);
    var m' := Enlist(m, r, s);
    assert m'.channels[..|m.channels|] == m.channels;
    RegistriesLegal(t, m, m', s);
  }

  lemma AskedLegal(t: nat, m: Shared, s: Service, chans: map<Resource, nat>, m': Shared)
    requires SharedOk(m) && Owns(m, t, s) && NoEntries(m, s)
    requires FreshChannels(m, s, chans) && Asked(m, s, chans, m')
    ensures Legal(t, m, m')
  {
    assert m'.channels[..|m.channels|] == m.channels;
    assert forall r :: Entry(m'.first, r, s) == if r in chans then Some(chans[r]) else Entry(m.first, r, s);
    RegistriesLegal(t, m, m', s);
  }

  // ---------------------------------------------------------------- insert, commit, clean up

  lemma InsertLegal(t: nat, m: Shared, s: Service, now: int)
    requires SharedOk(m) && s !in m.running && s in m.cfg.requirements
    ensures Legal(t, m, Insert(m, s, t, now)) && NoEntries(m, s)
  {
    var m' := Insert(m, s, t, now);
    Unreserved(m, s);
    InsertRegistry(t, m, s, now);
    InsertReserving(m, s, t, now);
    WaitersStay(m, m');
    hide WaitersOk, RegistryOk, InstanceOk, InstanceGuar, Reserving, NoEntries;
  }

  lemma InsertReserving(m: Shared, s: Service, t: nat, now: int)
    requires s !in m.running
    ensures forall q :: Reserving(m, q) ==> Reserving(Insert(m, s, t, now), q)
  {
  }

  lemma Unreserved(m: Shared, s: Service)
    requires WaitersOk(m) && !Reserving(m, s)
    ensures NoEntries(m, s)
  {
  }

  lemma InsertRegistry(t: nat, m: Shared, s: Service, now: int)
    requires RegistryOk(m) && s !in m.running && s in m.cfg.requirements
    ensures RegistryOk(Insert(m, s, t, now))
  {
  }

  /** `b` stops being uncommitted: nobody registered for its service any more. */
  lemma Closing(m: Shared, m': Shared, b: nat, x: Instance)
    requires SharedOk(m) && b < |m.instances| && !m.instances[b].released && NoEntries(m, m.instances[b].svc)
    requires m'.cfg == m.cfg && m'.change == m.change && m'.first == m.first && m'.channels == m.channels
    requires m'.instances == m.instances[b := x] && x.svc == m.instances[b].svc
    requires forall s :: s != x.svc && s in m.running ==> s in m'.running && m'.running[s] == m.running[s]
    ensures WaitersOk(m')
  {
    assert forall s :: s != x.svc && Reserving(m, s) ==> Reserving(m', s);
  }

  lemma CommitLegal(t: nat, m: Shared, b: nat)
    requires SharedOk(m) && b < |m.instances| && m.instances[b].holder == Some(t) && InReserve(m.instances[b])
    requires NoEntries(m, m.instances[b].svc)
    ensures Legal(t, m, Commit(m, b))
  {
    var x := m.instances[b];
    var need := m.cfg.Requirement(x.svc);
    RequirementDeclared(m.cfg, x.svc);
    UnregisterEntry(m.change, need.Keys, x.svc);
    var m' := Commit(m, b);
    assert forall r, q :: Entry(m'.change, r, q) == Entry(m.change, r, q);
    CommitKeeps(m, m', b);
    CommitGuar(t, m, m', b);
    hide SharedOk, Guar;
  }

  lemma CommitGuar(t: nat, m: Shared, m': Shared, b: nat)
    requires b < |m.instances| && m.instances[b].holder == Some(t)
    requires m'.instances == m.instances[b := m.instances[b].(committed := true)]
    requires m' == m.(instances := m'.instances, inUse := m'.inUse, reserved := m'.reserved, change := m'.change)
    requires forall r, q :: Entry(m'.change, r, q) == Entry(m.change, r, q)
    ensures Guar(t, m, m')
  {
    hide Entry, Owns;
  }

  lemma CommitKeeps(m: Shared, m': Shared, b: nat)
    requires SharedOk(m) && b < |m.instances| && InReserve(m.instances[b]) && NoEntries(m, m.instances[b].svc)
    requires m'.instances == m.instances[b := m.instances[b].(committed := true)]
    requires m' == m.(instances := m'.instances, inUse := m'.inUse, reserved := m'.reserved, change := m'.change)
    requires m'.inUse.Keys == m'.reserved.Keys == m.cfg.amount.Keys
    requires forall r, q :: Entry(m'.change, r, q) == Entry(m.change, r, q)
    ensures SharedOk(m')
  {
    var x := m.instances[b].(committed := true);
    assert forall s :: s != x.svc && Reserving(m, s) ==> Reserving(m', s);
    assert InstanceOk(m, m.instances[b]);
    InstancesStay(m, m', b, x);
    RegistryStays(m, m', b, x);
  }

  /** The part of a clean-up before its broadcast. */
  function Released(m: Shared, i: nat): Shared
    requires i < |m.instances|
  {
    var x := m.instances[i];
    SetInstance(m, i, x.(released := true, timer := false))
      .(inUse := if x.marked then Minus(m.inUse, m.cfg.Requirement(x.svc)) else m.inUse, running := m.running - {x.svc})
  }

  /** The registered instance is the one being cleaned up: the error branch is not taken. */
  lemma CleanUpSame(m: Shared, i: nat)
    requires SharedOk(m) && i < |m.instances| && !m.instances[i].released
    ensures m.instances[i].svc in m.running && m.running[m.instances[i].svc] == i
    ensures CleanUp(m, i) == Broadcast(Released(m, i), m.cfg.Requirement(m.instances[i].svc).Keys, true)
  {
  }

  lemma ReleasedKeeps(m: Shared, i: nat)
    requires SharedOk(m) && i < |m.instances| && !m.instances[i].released && NoEntries(m, m.instances[i].svc)
    ensures SharedOk(Released(m, i))
  {
    var x := m.instances[i];
    var m' := Released(m, i);
    RequirementDeclared(m.cfg, x.svc);
    assert m'.inUse.Keys == m.cfg.amount.Keys;
    Closing(m, m', i, x.(released := true, timer := false));
    ReleasedRegistry(m, i);
    hide WaitersOk, RegistryOk, InstanceOk, NoEntries, Minus;
  }

  lemma ReleasedRegistry(m: Shared, i: nat)
    requires RegistryOk(m) && i < |m.instances| && !m.instances[i].released
    ensures RegistryOk(Released(m, i))
  {
    hide Minus;
  }

  lemma CommittedNoEntries(m: Shared, i: nat)
    requires SharedOk(m) && i < |m.instances| && !m.instances[i].released && m.instances[i].committed
    ensures NoEntries(m, m.instances[i].svc)
  {
    var s := m.instances[i].svc;
    assert !Reserving(m, s);
  }

  lemma ReleasedGuar(t: nat, m: Shared, i: nat)
    requires i < |m.instances| && (m.instances[i].holder == Some(t) || m.instances[i].command)
    ensures Guar(t, m, Released(m, i))
    ensures forall s :: Owns(Released(m, i), t, s) ==> Owns(m, t, s)
  {
  }

  /** Clean-up by the holder, or of an instance whose command ran. */
  lemma CleanUpLegal(t: nat, m: Shared, i: nat)
    requires SharedOk(m) && i < |m.instances|
    requires m.instances[i].holder == Some(t) || m.instances[i].command
    requires !m.instances[i].released && !m.instances[i].committed ==> NoEntries(m, m.instances[i].svc)
    ensures Legal(t, m, CleanUp(m, i))
  {
    hide SharedOk, Guar, NoEntries, Owns;
    if m.instances[i].released {
      SameLegal(t, m);
    } else {
      if m.instances[i].committed {
        CommittedNoEntries(m, i);
      }
      CleanUpSame(m, i);
      ReleasedKeeps(m, i);
      ReleasedGuar(t, m, i);
      assert Legal(t, m, Broadcast(Released(m, i), m.cfg.Requirement(m.instances[i].svc).Keys, true)) by {
        var m1 := Released(m, i);
        assert m1.channels == m.channels && |m1.instances| == |m.instances|;
        assert forall k :: 0 <= k < |m.instances| ==> m1.instances[k].holder == m.instances[k].holder;
        var rs := m.cfg.Requirement(m.instances[i].svc).Keys;
        hide *;
        BroadcastLegal(t, m1, rs, true);
        assert Legal(t, m, Broadcast(m1, rs, true)) by {
          hide SharedOk, Guar, Owns;
          GuarTrans(t, m, m1, Broadcast(m1, rs, true));
        }
      }
    }
  }
}
