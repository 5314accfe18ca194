/** A goroutine of the program among the others: where it is, what it may rely on there, and what the
    others may do between two of its critical sections. */
module Scheduling {
  import opened Model
  import opened Machine
  import opened Invariant
  import opened Steps
  import opened Ledger
  import opened Manager

  /** The amounts in use are what the committed and unreleased instances require. */
  ghost predicate Accounted(c: Config, inUse: map<Resource, int>, xs: seq<Instance>) {
    forall r :: Get(inUse, r) == SumUse(c, xs, r)
  }

  /** Goroutine `me` is at `pc`, every fact it relies on there holds, and the ledger is in order. */
  ghost predicate At(rm: ResourceManager, me: nat, pc: Pc)
    reads rm
  {
    rm.Valid() && Before(me, rm.Value(), pc) && Accounted(rm.cfg, rm.resourcesInUse, rm.instances)
  }

  /** The registry only loses entries. */
  ghost predicate Shrinks(m: Shared, m': Shared) {
    m'.running.Keys <= m.running.Keys && forall v :: v in m'.running ==> m'.running[v] == m.running[v]
  }

  /** What an instance was, it remains. */
  predicate Ages(a: Instance, b: Instance) {
    b.svc == a.svc && (a.released ==> b.released) && (a.committed ==> b.committed) && (a.ready ==> b.ready)
  }

  ghost predicate Grows(m: Shared, m': Shared) {
    && |m.instances| <= |m'.instances|
    && forall i :: 0 <= i < |m.instances| ==> Ages(m.instances[i], m'.instances[i])
  }

  /** A name is registered as before, or to an instance born since. */
  ghost predicate Renews(m: Shared, m': Shared) {
    && |m.instances| <= |m'.instances|
    && forall v :: v in m'.running ==> (v in m.running && m'.running[v] == m.running[v])
                                       || |m.instances| <= m'.running[v]
  }

  /** Both of these, and instances are born up to number `limit` only. */
  ghost predicate Evolves(m: Shared, m': Shared, limit: nat) {
    && Grows(m, m') && Renews(m, m')
    && (|m'.instances| <= limit || |m'.instances| == |m.instances|)
  }

  /** What other goroutines do between two critical sections of `me`: all that `me` relies on survives. */
  ghost predicate Undisturbed(me: nat, m: Shared, m': Shared) {
    && m'.cfg == m.cfg && Grows(m, m')
    && (Accounted(m.cfg, m.inUse, m.instances) ==> Accounted(m'.cfg, m'.inUse, m'.instances))
    && forall pc :: Before(me, m, pc) ==> Before(me, m', pc)
  }

  /** The other goroutines' moves. Methods are proved for any moves within this contract; `limit` bounds the
      births of the instances they start, `alone` says that nobody moves. */
  method Others(rm: ResourceManager, me: nat, ghost limit: nat, ghost alone: bool)
    requires rm.Valid()
    modifies rm
    ensures rm.Valid() && Undisturbed(me, old(rm.Value()), rm.Value())
    ensures Evolves(old(rm.Value()), rm.Value(), limit)
    ensures alone ==> rm.Value() == old(rm.Value())
  {
  }

  /** Nobody but the monitor of `r` changes its cached amount, or what it still has to broadcast. */
  ghost predicate Unmonitored(m: Shared, m': Shared, r: Resource) {
    && (r in m'.available <==> r in m.available) && (r in m.available ==> m'.available[r] == m.available[r])
    && (r in m'.publishing <==> r in m.publishing) && (r in m.publishing ==> m'.publishing[r] == m.publishing[r])
  }

  /** The moves of everyone but the monitor of `r`, between two of its critical sections. */
  method Goroutines(rm: ResourceManager, r: Resource, ghost alone: bool)
    requires rm.Valid()
    modifies rm
    ensures rm.Valid() && Unmonitored(old(rm.Value()), rm.Value(), r)
    ensures alone ==> rm.Value() == old(rm.Value())
  {
  }

  /** A later reading of a monotone clock. */
  method Clock(earlier: int) returns (now: int)
    ensures earlier <= now
  {
    now := *;
    if now < earlier {
      now := earlier;
    }
  }

  lemma GrowsTrans(m: Shared, m1: Shared, m2: Shared)
    requires Grows(m, m1) && Grows(m1, m2)
    ensures Grows(m, m2)
  {
    forall i | 0 <= i < |m.instances| ensures Ages(m.instances[i], m2.instances[i]) {
      assert Ages(m.instances[i], m1.instances[i]) && Ages(m1.instances[i], m2.instances[i]);
    }
  }

  lemma ShrinksTrans(m: Shared, m1: Shared, m2: Shared)
    requires Shrinks(m, m1) && Shrinks(m1, m2)
    ensures Shrinks(m, m2)
  {
  }

  lemma ShrinksRenews(m: Shared, m': Shared)
    requires Shrinks(m, m') && |m.instances| <= |m'.instances|
    ensures Renews(m, m')
  {
  }

  lemma RenewsTrans(m: Shared, m1: Shared, m2: Shared)
    requires Renews(m, m1) && Renews(m1, m2)
    ensures Renews(m, m2)
  {
  }

  lemma EvolvesTrans(m: Shared, m1: Shared, m2: Shared, limit: nat)
    requires Evolves(m, m1, limit) && Evolves(m1, m2, limit)
    ensures Evolves(m, m2, limit)
  {
    hide Grows, Renews;
    assert |m.instances| <= |m1.instances| <= |m2.instances| by { GrowsLength(m, m1); GrowsLength(m1, m2); }
    GrowsTrans(m, m1, m2);
    RenewsTrans(m, m1, m2);
  }

  lemma GrowsLength(m: Shared, m': Shared)
    requires Grows(m, m')
    ensures |m.instances| <= |m'.instances|
  {
  }

  lemma EvolvesSame(m: Shared, m': Shared, limit: nat)
    requires m'.running == m.running && m'.instances == m.instances
    ensures Evolves(m, m', limit)
  {
  }

  /** A step of the goroutine itself that starts nothing. */
  lemma EvolvesOwn(m: Shared, m': Shared, limit: nat)
    requires Grows(m, m') && Shrinks(m, m') && |m'.instances| == |m.instances|
    ensures Evolves(m, m', limit)
  {
    hide Grows, Shrinks, Renews;
    ShrinksRenews(m, m');
  }

  // ---------------------------------------------------------------- counting the registry

  /** Names of different births within `lo..hi` are at most `hi - lo`. */
  lemma {:induction false} Births(births: map<Service, nat>, names: set<Service>, lo: nat, hi: nat)
    requires lo <= hi && names <= births.Keys && forall v :: v in names ==> lo <= births[v] < hi
    requires forall v, w :: v in names && w in names && births[v] == births[w] ==> v == w
    ensures |names| <= hi - lo
  {
    if names == {} {
    } else if v :| v in names && births[v] == hi - 1 {
      Births(births, names - {v}, lo, hi - 1);
      assert |names - {v}| == |names| - 1;
    } else {
      var v :| v in names;
      Births(births, names, lo, hi - 1);
    }
  }

  lemma Fewer(a: set<Service>, b: set<Service>)
    requires a <= b
    ensures |a| <= |b|
  {
    assert b == a + (b - a);
  }

  /** Of some registered names, all but as many as were born since were registered before and stayed. */
  lemma Turnover(m: Shared, m': Shared, names: set<Service>, stayed: set<Service>)
    requires Renews(m, m') && SharedOk(m') && names <= m'.running.Keys
    requires forall v :: v in names && m'.running[v] < |m.instances| ==> v in stayed
    ensures |names| + |m.instances| <= |stayed| + |m'.instances|
  {
    var born := set v | v in names && |m.instances| <= m'.running[v];
    forall v, w | v in born && w in born && m'.running[v] == m'.running[w] ensures v == w {
      assert m'.instances[m'.running[v]].svc == v && m'.instances[m'.running[w]].svc == w;
    }
    Births(m'.running, born, |m.instances|, |m'.instances|);
    assert names == (names - born) + born;
    Fewer(names - born, stayed);
  }

  /** The registry grows by at most what was born. */
  lemma Renewed(m: Shared, m': Shared)
    requires Renews(m, m') && SharedOk(m')
    ensures |m'.running.Keys| + |m.instances| <= |m.running.Keys| + |m'.instances|
  {
    Turnover(m, m', m'.running.Keys, m.running.Keys);
  }

  /** And by one less when a service left, or was replaced. */
  lemma RenewedWithout(m: Shared, m': Shared, v: Service)
    requires Renews(m, m') && SharedOk(m') && v in m.running
    requires v in m'.running ==> |m.instances| <= m'.running[v]
    ensures |m'.running.Keys| + |m.instances| + 1 <= |m.running.Keys| + |m'.instances|
  {
    Turnover(m, m', m'.running.Keys, m.running.Keys - {v});
    assert |m.running.Keys - {v}| == |m.running.Keys| - 1;
  }

  lemma CleanUpShrinks(m: Shared, i: nat)
    requires i < |m.instances|
    ensures Shrinks(m, CleanUp(m, i)) && CleanUp(m, i).reserved == m.reserved
  {
    hide Fill, Listeners, Minus;
  }

  lemma CleanUpGrows(m: Shared, i: nat)
    requires i < |m.instances|
    ensures Grows(m, CleanUp(m, i)) && CleanUp(m, i).instances[i].released
  {
    CleanUpFrame(m, i);
    assert i < |CleanUp(m, i).instances| && CleanUp(m, i).instances[i].released
           && Ages(m.instances[i], CleanUp(m, i).instances[i]) by {
      if !m.instances[i].released {
        CleanUpLedger(m, i);
      } else {
        assert CleanUp(m, i) == m;
      }
      hide CleanUp;
    }
    hide CleanUp;
  }

  lemma AfterBefore(me: nat, m: Shared, m': Shared, pc: Pc)
    requires After(me, m, m', pc)
    ensures Before(me, m', pc)
  {
  }

  lemma BeforeShared(me: nat, m: Shared, pc: Pc)
    requires Before(me, m, pc)
    ensures SharedOk(m)
  {
  }

  // ---------------------------------------------------------------- the ledger

  lemma AccountedDelta(m: Shared, m': Shared, k: int)
    requires UseDelta(m, m', k) && Accounted(m.cfg, m.inUse, m.instances)
    ensures Accounted(m'.cfg, m'.inUse, m'.instances)
  {
    forall r ensures Get(m'.inUse, r) == SumUse(m'.cfg, m'.instances, r) {
      SumUseGrow(m.cfg, m.instances, m'.instances, k, r);
    }
  }

  lemma CommitAccounted(m: Shared, b: nat)
    requires b < |m.instances| && InReserve(m.instances[b]) && Accounted(m.cfg, m.inUse, m.instances)
    ensures Accounted(Commit(m, b).cfg, Commit(m, b).inUse, Commit(m, b).instances)
  {
    hide *;
    CommitUse(m, b);
    AccountedDelta(m, Commit(m, b), b);
  }

  /** A change of one instance that the sums do not see. */
  lemma SetAccounted(m: Shared, i: nat, x: Instance)
    requires i < |m.instances| && Accounted(m.cfg, m.inUse, m.instances)
    requires x.svc == m.instances[i].svc && x.committed == m.instances[i].committed
             && x.released == m.instances[i].released
    ensures Accounted(m.cfg, m.inUse, m.instances[i := x])
  {
    forall r ensures Get(m.inUse, r) == SumUse(m.cfg, m.instances[i := x], r) {
      SumUseChange(m.cfg, m.instances, m.instances[i := x], -1, r);
    }
  }

  /** Clean-up of an instance whose mutex is held and whose command ran, or that was released. */
  lemma CleanUpAccounted(me: nat, m: Shared, i: nat)
    requires SharedOk(m) && i < |m.instances| && Accounted(m.cfg, m.inUse, m.instances)
    requires !m.instances[i].released ==> (m.instances[i].marked <==> m.instances[i].committed)
    ensures Accounted(CleanUp(m, i).cfg, CleanUp(m, i).inUse, CleanUp(m, i).instances)
  {
    hide *;
    CleanUpUse(me, m, i);
    AccountedDelta(m, CleanUp(m, i), i);
  }
}
