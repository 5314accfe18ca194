/** The invariant of every reachable state, by induction over runs. */
module Reachable {
  import opened Model
  import opened Machine
  import opened Invariant
  import opened Operations
  import opened Steps
  import opened Ledger

  /** The maps and counters are the sums they stand for. */
  ghost predicate Books(s: State) {
    && (forall r :: Get(s.m.inUse, r) == SumUse(s.m.cfg, s.m.instances, r))
    && (forall r :: Get(s.m.reserved, r) == Sum(Owed(s.m.cfg, r), s.threads))
    && (forall q :: StatsOf(s.m, q) == Stats(Sum(Proxies(q), s.threads), Sum(Waits(q), s.threads)))
    && forall r :: r !in s.m.cfg.check ==> Get(s.m.inUse, r) <= Get(s.m.cfg.amount, r)
  }

  ghost predicate ThreadsOk(s: State) {
    forall t :: 0 <= t < |s.threads| ==> ThreadOk(s.m, t, s.threads[t]) && Known(s.m, t, s.threads[t])
  }

  ghost predicate HoldersExist(s: State) {
    forall i :: 0 <= i < |s.m.instances| && s.m.instances[i].holder.Some? ==>
      s.m.instances[i].holder.value < |s.threads|
  }

  ghost predicate Inv(s: State) {
    SharedOk(s.m) && ThreadsOk(s) && HoldersExist(s) && Books(s)
  }

  lemma InitInv(s: State)
    requires Init(s)
    ensures Inv(s)
  {
  }

  // ---------------------------------------------------------------- goroutine facts

  lemma StayKnown(m: Shared, m': Shared, t: nat, u: nat, pc: Pc)
    requires Guar(t, m, m') && t != u && Known(m, u, pc)
    ensures Known(m', u, pc)
  {
    forall i | 0 <= i < |m'.instances| && m'.instances[i].holder == Some(u) ensures i in Holds(pc) {
      if i < |m.instances| {
        assert InstanceGuar(t, m.instances[i], m'.instances[i]);
      }
    }
  }

  lemma NewcomerOk(m: Shared, u: nat, n: nat, pc: Pc)
    requires Newcomer(m, pc) && n <= u
    requires forall i :: 0 <= i < |m.instances| && m.instances[i].holder.Some? ==> m.instances[i].holder.value < n
    ensures ThreadOk(m, u, pc) && Known(m, u, pc)
  {
  }

  lemma ThreadsStay(s: State, t: nat, s': State)
    requires SharedOk(s.m) && ThreadsOk(s) && HoldersExist(s) && t < |s.threads| <= |s'.threads|
    requires s'.threads == s.threads[t := s'.threads[t]] + s'.threads[|s.threads|..]
    requires After(t, s.m, s'.m, s'.threads[t]) && Newcomers(s'.m, s'.threads[|s.threads|..])
    ensures ThreadsOk(s') && HoldersExist(s')
  {
    assert forall i :: 0 <= i < |s'.m.instances| && s'.m.instances[i].holder.Some? ==>
           s'.m.instances[i].holder.value < |s.threads| || s'.m.instances[i].holder == Some(t);
    hide SharedOk, Guar, ThreadOk, Known, Newcomer;
    var spawn := s'.threads[|s.threads|..];
    forall u | 0 <= u < |s'.threads| ensures ThreadOk(s'.m, u, s'.threads[u]) && Known(s'.m, u, s'.threads[u]) {
      if u >= |s.threads| {
        assert s'.threads[u] == spawn[u - |s.threads|];
        NewcomerOk(s'.m, u, |s.threads|, s'.threads[u]);
      } else if u != t {
        assert s'.threads[u] == s.threads[u];
        StayOk(s.m, s'.m, t, u, s.threads[u]);
        StayKnown(s.m, s'.m, t, u, s.threads[u]);
      }
    }
  }

  // ---------------------------------------------------------------- the books

  lemma NewcomersWeigh(w: Scale, m: Shared, spawn: seq<Pc>)
    requires forall k :: 0 <= k < |spawn| ==> spawn[k].Arriving? || spawn[k].IdleFired? || spawn[k].Reaping?
    ensures Sum(w, spawn) == 0
  {
    SumZero(w, spawn);
  }

  lemma SpawnKinds(t: nat, a: Action, m: Shared, pc: Pc, m': Shared, pc': Pc, spawn: seq<Pc>)
    requires Step(t, a, m, pc, m', pc', spawn)
    ensures forall k :: 0 <= k < |spawn| ==> spawn[k].Reaping?
  {
    hide StartStep, ClientStep;
    if pc.Starting? {
      StartSpawn(t, a, m, pc.svc, pc.b, pc.phase, m', pc', spawn);
    } else if !pc.StopLookup? && !pc.StopWait? && !pc.StopHold? && !pc.StopClean? && !pc.Unlocking? && !pc.IdleFired?
              && !pc.Reaping? && !pc.Reaped? && !pc.Returning? {
      ClientNoSpawn(t, a, m, pc, m', pc', spawn);
    }
  }

  lemma StartSpawn(t: nat, a: Action, m: Shared, s: Service, b: nat, phase: Phase, m': Shared, pc': Pc, spawn: seq<Pc>)
    requires b < |m.instances| && StartStep(t, a, m, s, b, phase, m', pc', spawn)
    ensures forall k :: 0 <= k < |spawn| ==> spawn[k].Reaping?
  {
    hide PassStep, PendingStep, IsVictim, Eligible, CleanUp;
    if phase.Spawned? {
      assert spawn == [Reaping(s, b)];
    }
  }

  lemma SumStep(w: Scale, s: State, t: nat, s': State)
    requires t < |s.threads| <= |s'.threads|
    requires s'.threads == s.threads[t := s'.threads[t]] + s'.threads[|s.threads|..]
    requires forall k :: |s.threads| <= k < |s'.threads| ==> s'.threads[k].Reaping?
    ensures Sum(w, s'.threads) == Sum(w, s.threads) - Weight(w, s.threads[t]) + Weight(w, s'.threads[t])
  {
    var spawn := s'.threads[|s.threads|..];
    SumSplit(w, s.threads[t := s'.threads[t]], spawn);
    SumUpdate(w, s.threads, t, s'.threads[t]);
    NewcomersWeigh(w, s.m, spawn);
  }

  lemma CountedNow(s: State, t: nat)
    requires Books(s) && t < |s.threads|
    ensures Counted(s.m, s.threads[t])
  {
    forall q ensures Weight(Proxies(q), s.threads[t]) <= StatsOf(s.m, q).proxied
                     && Weight(Waits(q), s.threads[t]) <= StatsOf(s.m, q).waiting
                     && 0 <= StatsOf(s.m, q).proxied && 0 <= StatsOf(s.m, q).waiting
    {
      SumAtLeast(Proxies(q), s.threads, t);
      SumAtLeast(Waits(q), s.threads, t);
    }
  }

  lemma UseStep(s: State, s': State, k: int)
    requires UseDelta(s.m, s'.m, k)
    requires forall r :: Get(s.m.inUse, r) == SumUse(s.m.cfg, s.m.instances, r)
    ensures forall r :: Get(s'.m.inUse, r) == SumUse(s'.m.cfg, s'.m.instances, r)
  {
    forall r ensures Get(s'.m.inUse, r) == SumUse(s'.m.cfg, s'.m.instances, r) {
      SumUseGrow(s.m.cfg, s.m.instances, s'.m.instances, k, r);
    }
  }

  lemma BooksStay(s: State, t: nat, s': State)
    requires Books(s) && t < |s.threads| <= |s'.threads|
    requires s'.threads == s.threads[t := s'.threads[t]] + s'.threads[|s.threads|..]
    requires forall k :: |s.threads| <= k < |s'.threads| ==> s'.threads[k].Reaping?
    requires Balanced(s.m, s'.m, s.threads[t], s'.threads[t])
    ensures Books(s')
  {
    UseStep(s, s', Subject(s.threads[t]));
    assert s'.m.cfg == s.m.cfg;
    hide UseDelta, Weight, SumUse, Sum;
    forall r ensures Get(s'.m.reserved, r) == Sum(Owed(s'.m.cfg, r), s'.threads) {
      SumStep(Owed(s.m.cfg, r), s, t, s');
    }
    forall q ensures StatsOf(s'.m, q) == Stats(Sum(Proxies(q), s'.threads), Sum(Waits(q), s'.threads)) {
      SumStep(Proxies(q), s, t, s');
      SumStep(Waits(q), s, t, s');
    }
  }

  // ---------------------------------------------------------------- steps and runs

  lemma DoInv(s: State, t: nat, a: Action, s': State)
    requires Inv(s) && Next(s, Do(t, a), s')
    ensures Inv(s')
  {
    var pc, pc', spawn := s.threads[t], s'.threads[t], s'.threads[|s.threads|..];
    assert Step(t, a, s.m, pc, s'.m, pc', spawn);
    hide Step, SharedOk, ThreadOk, Known, Balanced, Newcomers, HoldersExist, Guar;
    CountedNow(s, t);
    StepOk(t, a, s.m, pc, s'.m, pc', spawn);
    StepBalanced(t, a, s.m, pc, s'.m, pc', spawn);
    SpawnKinds(t, a, s.m, pc, s'.m, pc', spawn);
    ThreadsStay(s, t, s');
    BooksStay(s, t, s');
  }

  lemma EventLegal(t: nat, e: Event, m: Shared, m': Shared, spawn: seq<Pc>)
    requires SharedOk(m) && Occur(e, m, m', spawn)
    ensures Legal(t, m, m') && Newcomers(m', spawn) && Unbooked(m, m')
    ensures forall k :: 0 <= k < |spawn| ==> spawn[k].Arriving? || spawn[k].IdleFired?
  {
    hide SharedOk, Guar, Unbooked, Published, Measured;
    match e
    case NewClient(s) => SameLegal(t, m); UnbookedSame(m);
    case IdleTimer(i) => SameLegal(t, m); UnbookedSame(m);
    case Measure(r, amount) => MeasuredLegal(t, m, r, amount); MeasuredUnbooked(m, r, amount);
    case Publish(r) => PublishedLegal(t, m, r); PublishedUnbooked(m, r);
  }

  lemma MeasuredUnbooked(m: Shared, r: Resource, amount: int)
    ensures Unbooked(m, Measured(m, r, amount))
  {
  }

  lemma PublishedUnbooked(m: Shared, r: Resource)
    requires r in m.publishing
    ensures Unbooked(m, Published(m, r))
  {
  }

  lemma EventThreads(s: State, s': State, t: nat)
    requires SharedOk(s.m) && ThreadsOk(s) && HoldersExist(s) && t == |s'.threads|
    requires |s.threads| <= |s'.threads| && s'.threads == s.threads + s'.threads[|s.threads|..]
    requires Legal(t, s.m, s'.m) && Newcomers(s'.m, s'.threads[|s.threads|..])
    requires |s'.m.instances| == |s.m.instances|
    requires forall i :: 0 <= i < |s.m.instances| ==> s'.m.instances[i].holder == s.m.instances[i].holder
    ensures ThreadsOk(s') && HoldersExist(s')
  {
    hide SharedOk, Guar, ThreadOk, Known, Newcomer;
    var spawn := s'.threads[|s.threads|..];
    forall u | 0 <= u < |s'.threads| ensures ThreadOk(s'.m, u, s'.threads[u]) && Known(s'.m, u, s'.threads[u]) {
      if u >= |s.threads| {
        assert s'.threads[u] == spawn[u - |s.threads|];
        NewcomerOk(s'.m, u, |s.threads|, s'.threads[u]);
      } else {
        assert s'.threads[u] == s.threads[u];
        StayOk(s.m, s'.m, t, u, s.threads[u]);
        StayKnown(s.m, s'.m, t, u, s.threads[u]);
      }
    }
  }

  lemma EventBooks(s: State, s': State)
    requires Books(s) && Unbooked(s.m, s'.m)
    requires |s.threads| <= |s'.threads| && s'.threads == s.threads + s'.threads[|s.threads|..]
    requires forall k :: |s.threads| <= k < |s'.threads| ==> s'.threads[k].Arriving? || s'.threads[k].IdleFired?
    ensures Books(s')
  {
    UnbookedUse(s.m, s'.m, -1);
    UseStep(s, s', -1);
    hide UseDelta, Weight, SumUse;
    forall w ensures Sum(w, s'.threads) == Sum(w, s.threads) {
      SumSplit(w, s.threads, s'.threads[|s.threads|..]);
      NewcomersWeigh(w, s.m, s'.threads[|s.threads|..]);
    }
  }

  lemma EventInstances(e: Event, m: Shared, m': Shared, spawn: seq<Pc>)
    requires Occur(e, m, m', spawn)
    ensures m'.instances == m.instances
  {
  }

  lemma EnvInv(s: State, e: Event, s': State)
    requires Inv(s) && Next(s, Env(e), s')
    ensures Inv(s')
  {
    var spawn := s'.threads[|s.threads|..];
    EventInstances(e, s.m, s'.m, spawn);
    EventLegal(|s'.threads|, e, s.m, s'.m, spawn);
    hide Occur, SharedOk, Guar, ThreadOk, Known, Unbooked, Newcomers;
    EventThreads(s, s', |s'.threads|);
    assert forall k :: |s.threads| <= k < |s'.threads| ==> s'.threads[k] == spawn[k - |s.threads|];
    EventBooks(s, s');
  }

  /** Every step keeps the invariant. */
  lemma NextInv(s: State, l: Label, s': State)
    requires Inv(s) && Next(s, l, s')
    ensures Inv(s')
  {
    hide *;
    match l
    case Do(t, a) => DoInv(s, t, a, s');
    case Env(e) => EnvInv(s, e, s');
  }

  /** Every state of every run satisfies the invariant. */
  lemma {:induction false} RunInv(run: seq<State>, labels: seq<Label>, k: nat)
    requires IsRun(run, labels) && k < |run|
    ensures Inv(run[k])
  {
    hide Init, Next, Inv;
    if k == 0 {
      InitInv(run[0]);
    } else {
      RunInv(run, labels, k - 1);
      assert Next(run[k - 1], labels[k - 1], run[k - 1 + 1]);
      NextInv(run[k - 1], labels[k - 1], run[k]);
    }
  }

  lemma StepIsNext(s: State, t: nat, a: Action, m: Shared, pc: Pc)
    requires t < |s.threads| && Step(t, a, s.m, s.threads[t], m, pc, [])
    ensures Next(s, Do(t, a), State(m, s.threads[t := pc]))
  {
    hide Step;
    var s' := State(m, s.threads[t := pc]);
    assert s'.threads[|s.threads|..] == [];
    assert s'.threads == s.threads[t := s'.threads[t]] + [];
  }

  lemma StartIsStep(t: nat, a: Action, m: Shared, q: Service, b: nat, phase: Phase, m': Shared, pc': Pc,
                    spawn: seq<Pc>)
    requires b < |m.instances| && StartStep(t, a, m, q, b, phase, m', pc', spawn)
    ensures Step(t, a, m, Starting(q, b, phase), m', pc', spawn)
  {
    hide StartStep, ClientStep;
  }
}
