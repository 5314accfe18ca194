/** The ledger and the connection counters as sums: what the maps hold is what the instances
    and the goroutines account for. */
module Ledger {
  import opened Model
  import opened Machine
  import opened Invariant
  import opened Operations
  import opened Steps

  // ---------------------------------------------------------------- sums

  /** What an instance accounts for in `resourcesInUse[r]`. */
  function Use(c: Config, x: Instance, r: Resource): int {
    if x.committed && !x.released then c.Need(x.svc, r) else 0
  }

  function SumUse(c: Config, xs: seq<Instance>, r: Resource): int {
    if xs == [] then 0 else SumUse(c, xs[..|xs| - 1], r) + Use(c, xs[|xs| - 1], r)
  }

  /** What goroutines are weighed for. */
  datatype Scale = Owed(c: Config, r: Resource) | Waits(s: Service) | Proxies(s: Service)

  function Weight(w: Scale, pc: Pc): int {
    match w
    case Owed(c, r) => if Debtor(pc).Some? then c.Need(Debtor(pc).value, r) else 0
    case Waits(s) => if WaitsOn(pc) == Some(s) then 1 else 0
    case Proxies(s) => if ProxiesTo(pc) == Some(s) then 1 else 0
  }

  function Sum(w: Scale, pcs: seq<Pc>): int {
    if pcs == [] then 0 else Sum(w, pcs[..|pcs| - 1]) + Weight(w, pcs[|pcs| - 1])
  }

  lemma {:induction false} SumSplit(w: Scale, a: seq<Pc>, b: seq<Pc>)
    ensures Sum(w, a + b) == Sum(w, a) + Sum(w, b)
  {
    if b == [] {
      assert a + b == a;
    } else {
      assert (a + b)[..|a + b| - 1] == a + b[..|b| - 1];
      SumSplit(w, a, b[..|b| - 1]);
    }
  }

  lemma {:induction false} SumUpdate(w: Scale, pcs: seq<Pc>, t: nat, pc: Pc)
    requires t < |pcs|
    ensures Sum(w, pcs[t := pc]) == Sum(w, pcs) - Weight(w, pcs[t]) + Weight(w, pc)
  {
    var n := |pcs| - 1;
    if t == n {
      assert pcs[t := pc][..n] == pcs[..n];
    } else {
      assert pcs[t := pc][..n] == pcs[..n][t := pc];
      SumUpdate(w, pcs[..n], t, pc);
    }
  }

  lemma {:induction false} SumZero(w: Scale, pcs: seq<Pc>)
    requires forall k :: 0 <= k < |pcs| ==> Weight(w, pcs[k]) == 0
    ensures Sum(w, pcs) == 0
  {
    if pcs != [] {
      SumZero(w, pcs[..|pcs| - 1]);
    }
  }

  lemma {:induction false} SumAtLeast(w: Scale, pcs: seq<Pc>, t: nat)
    requires t < |pcs| && forall pc :: 0 <= Weight(w, pc)
    ensures Weight(w, pcs[t]) <= Sum(w, pcs)
    ensures 0 <= Sum(w, pcs[..t])
  {
    var n := |pcs| - 1;
    if t < n {
      SumAtLeast(w, pcs[..n], t);
      assert pcs[..n][..t] == pcs[..t];
      assert 0 <= Weight(w, pcs[n]);
    } else {
      SumNonnegative(w, pcs[..n]);
    }
  }

  lemma {:induction false} SumNonnegative(w: Scale, pcs: seq<Pc>)
    requires forall pc :: 0 <= Weight(w, pc)
    ensures 0 <= Sum(w, pcs)
  {
    if pcs != [] {
      SumNonnegative(w, pcs[..|pcs| - 1]);
    }
  }

  /** Sums of two equally long records that agree except at `k`. */
  lemma {:induction false} SumUseChange(c: Config, xs: seq<Instance>, ys: seq<Instance>, k: int, r: Resource)
    requires |xs| == |ys| && forall j :: 0 <= j < |xs| && j != k ==> Use(c, xs[j], r) == Use(c, ys[j], r)
    ensures SumUse(c, ys, r) == SumUse(c, xs, r) + if 0 <= k < |xs| then Use(c, ys[k], r) - Use(c, xs[k], r) else 0
  {
    if xs != [] {
      var n := |xs| - 1;
      SumUseChange(c, xs[..n], ys[..n], k, r);
    }
  }

  lemma {:induction false} SumUseGrow(c: Config, xs: seq<Instance>, ys: seq<Instance>, k: int, r: Resource)
    requires |xs| <= |ys| && forall j :: 0 <= j < |xs| && j != k ==> Use(c, xs[j], r) == Use(c, ys[j], r)
    requires forall j :: |xs| <= j < |ys| ==> Use(c, ys[j], r) == 0
    ensures SumUse(c, ys, r) == SumUse(c, xs, r) + if 0 <= k < |xs| then Use(c, ys[k], r) - Use(c, xs[k], r) else 0
    decreases |ys|
  {
    if |ys| == |xs| {
      SumUseChange(c, xs, ys, k, r);
    } else {
      SumUseGrow(c, xs, ys[..|ys| - 1], k, r);
    }
  }

  lemma {:induction false} SumUseNonnegative(c: Config, xs: seq<Instance>, r: Resource)
    requires c.Valid()
    ensures 0 <= SumUse(c, xs, r)
  {
    if xs != [] {
      RequirementDeclared(c, xs[|xs| - 1].svc);
      SumUseNonnegative(c, xs[..|xs| - 1], r);
    }
  }

  // ---------------------------------------------------------------- one step

  /** The instance a step at `pc` may commit or release, if any. */
  function Subject(pc: Pc): int {
    match pc
    case Starting(_, b, _) => b
    case StopClean(_, i, _) => i
    case Reaped(_, i) => i
    case _ => -1
  }

  ghost predicate UseDelta(m: Shared, m': Shared, k: int) {
    && m'.cfg == m.cfg && |m.instances| <= |m'.instances|
    && (forall j :: 0 <= j < |m.instances| && j != k ==>
          && m'.instances[j].svc == m.instances[j].svc && m'.instances[j].committed == m.instances[j].committed
          && m'.instances[j].released == m.instances[j].released)
    && (forall j :: |m.instances| <= j < |m'.instances| ==> !m'.instances[j].committed)
    && forall r :: Get(m'.inUse, r) == Get(m.inUse, r)
                   + if 0 <= k < |m.instances|
                     then Use(m.cfg, m'.instances[k], r) - Use(m.cfg, m.instances[k], r) else 0
  }

  ghost predicate DebtDelta(m: Shared, m': Shared, pc: Pc, pc': Pc) {
    forall r :: Get(m'.reserved, r) == Get(m.reserved, r) - Weight(Owed(m.cfg, r), pc) + Weight(Owed(m.cfg, r), pc')
  }

  ghost predicate CountDelta(m: Shared, m': Shared, pc: Pc, pc': Pc) {
    forall s :: StatsOf(m', s) == Stats(
      StatsOf(m, s).proxied - Weight(Proxies(s), pc) + Weight(Proxies(s), pc'),
      StatsOf(m, s).waiting - Weight(Waits(s), pc) + Weight(Waits(s), pc'))
  }

  /** No commit overdraws a resource without a CheckCommand. */
  ghost predicate CapKept(m: Shared, m': Shared) {
    forall r :: r !in m.cfg.check ==>
      Get(m'.inUse, r) <= Get(m.inUse, r) || Get(m'.inUse, r) <= Get(m.cfg.amount, r)
  }

  ghost predicate Balanced(m: Shared, m': Shared, pc: Pc, pc': Pc) {
    UseDelta(m, m', Subject(pc)) && DebtDelta(m, m', pc, pc') && CountDelta(m, m', pc, pc') && CapKept(m, m')
  }

  /** The counters cover the goroutine about to step. */
  ghost predicate Counted(m: Shared, pc: Pc) {
    forall s :: Weight(Proxies(s), pc) <= StatsOf(m, s).proxied && Weight(Waits(s), pc) <= StatsOf(m, s).waiting
                && 0 <= StatsOf(m, s).proxied && 0 <= StatsOf(m, s).waiting
  }

  /** A step that touches neither ledger nor counters. */
  ghost predicate Unbooked(m: Shared, m': Shared) {
    && m'.cfg == m.cfg && m'.inUse == m.inUse && m'.reserved == m.reserved && m'.stats == m.stats
    && |m.instances| <= |m'.instances|
    && (forall j :: 0 <= j < |m.instances| ==>
          && m'.instances[j].svc == m.instances[j].svc && m'.instances[j].committed == m.instances[j].committed
          && m'.instances[j].released == m.instances[j].released)
    && forall j :: |m.instances| <= j < |m'.instances| ==> !m'.instances[j].committed
  }

  lemma UnbookedUse(m: Shared, m': Shared, k: int)
    requires Unbooked(m, m')
    ensures UseDelta(m, m', k) && CapKept(m, m')
  {
  }

  lemma UnbookedDebt(m: Shared, m': Shared, pc: Pc, pc': Pc)
    requires m'.reserved == m.reserved && Debtor(pc') == Debtor(pc)
    ensures DebtDelta(m, m', pc, pc')
  {
    hide Debtor;
  }

  lemma UnbookedCount(m: Shared, m': Shared, pc: Pc, pc': Pc)
    requires m'.stats == m.stats && WaitsOn(pc') == WaitsOn(pc) && ProxiesTo(pc') == ProxiesTo(pc)
    ensures CountDelta(m, m', pc, pc')
  {
    hide WaitsOn, ProxiesTo;
  }

  lemma UnbookedBalanced(m: Shared, m': Shared, pc: Pc, pc': Pc)
    requires Unbooked(m, m')
    requires Debtor(pc') == Debtor(pc) && WaitsOn(pc') == WaitsOn(pc) && ProxiesTo(pc') == ProxiesTo(pc)
    ensures Balanced(m, m', pc, pc')
  {
    UnbookedUse(m, m', Subject(pc));
    UnbookedDebt(m, m', pc, pc');
    UnbookedCount(m, m', pc, pc');
    hide UseDelta, DebtDelta, CountDelta, CapKept;
  }

  lemma UnbookedSame(m: Shared)
    ensures Unbooked(m, m)
  {
  }

  lemma UnbookedSet(m: Shared, i: nat, x: Instance)
    requires i < |m.instances| && x.svc == m.instances[i].svc
    requires x.committed == m.instances[i].committed && x.released == m.instances[i].released
    ensures Unbooked(m, SetInstance(m, i, x))
  {
  }

  lemma UnbookedTouch(m: Shared, s: Service, j: nat, now: int)
    ensures Unbooked(m, TouchIf(m, s, j, now))
  {
    hide Unbooked;
    if j < |m.instances| && m.instances[j].svc == s {
      UnbookedSet(m, j, m.instances[j].(lastUsed := now));
    } else {
      UnbookedSame(m);
    }
  }

  lemma UnbookedInsert(m: Shared, s: Service, t: nat, now: int)
    ensures Unbooked(m, Insert(m, s, t, now))
  {
  }

  /** Channels and registrations are not booked. */
  lemma UnbookedSignals(m: Shared, m': Shared)
    requires m' == m.(change := m'.change, first := m'.first, channels := m'.channels)
    ensures Unbooked(m, m')
  {
  }

  lemma CountPcs(m: Shared, pc: Pc, s: Service, p: int, w: int, next: Onward)
    requires match pc
             case Arriving(q) => s == q && p == 0 && w == 1 && next == OnLookup
             case Entering(q) => s == q && p == 1 && w == -1 && next == OnProxy
             case Departing(q) => s == q && p == -1 && w == 0 && next == OnDone
             case GivingUp(q) => s == q && p == 0 && w == -1 && next == OnDone
             case _ => false
    ensures var pc' := AfterCount(Count(m, s, p, w), s, next);
            && Debtor(pc') == Debtor(pc) == None && Subject(pc) == -1
            && forall q :: Weight(Proxies(q), pc') == Weight(Proxies(q), pc) + (if q == s then p else 0)
                           && Weight(Waits(q), pc') == Weight(Waits(q), pc) + if q == s then w else 0
  {
    hide Count, StatsOf;
  }

  lemma CountedDelta(m: Shared, m': Shared, pc: Pc, pc': Pc, s: Service, p: int, w: int)
    requires StatsOf(m', s) == Stats(StatsOf(m, s).proxied + p, StatsOf(m, s).waiting + w)
    requires forall q :: q != s ==> StatsOf(m', q) == StatsOf(m, q)
    requires forall q :: Weight(Proxies(q), pc') == Weight(Proxies(q), pc) + (if q == s then p else 0)
                         && Weight(Waits(q), pc') == Weight(Waits(q), pc) + if q == s then w else 0
    ensures CountDelta(m, m', pc, pc')
  {
    hide StatsOf, Weight;
  }

  lemma CountBalanced(m: Shared, pc: Pc, s: Service, p: int, w: int, next: Onward)
    requires Counted(m, pc)
    requires match pc
             case Arriving(q) => s == q && p == 0 && w == 1 && next == OnLookup
             case Entering(q) => s == q && p == 1 && w == -1 && next == OnProxy
             case Departing(q) => s == q && p == -1 && w == 0 && next == OnDone
             case GivingUp(q) => s == q && p == 0 && w == -1 && next == OnDone
             case _ => false
    ensures Balanced(m, Count(m, s, p, w), pc, AfterCount(Count(m, s, p, w), s, next))
    ensures StatsOf(Count(m, s, p, w), s) == Stats(StatsOf(m, s).proxied + p, StatsOf(m, s).waiting + w)
  {
    var m' := Count(m, s, p, w);
    var pc' := AfterCount(m', s, next);
    assert Weight(Proxies(s), pc) <= StatsOf(m, s).proxied && Weight(Waits(s), pc) <= StatsOf(m, s).waiting;
    assert StatsOf(m', s) == Stats(StatsOf(m, s).proxied + p, StatsOf(m, s).waiting + w);
    assert forall q :: q != s ==> StatsOf(m', q) == StatsOf(m, q);
    assert Unbooked(m, m'.(stats := m.stats));
    CountPcs(m, pc, s, p, w, next);
    hide Count, AfterCount, StatsOf, Counted;
    UnbookedUse(m, m'.(stats := m.stats), Subject(pc));
    UnbookedDebt(m, m', pc, pc');
    CountedDelta(m, m', pc, pc', s, p, w);
  }

  // ---------------------------------------------------------------- the four entries in the books

  lemma CommitBalanced(t: nat, m: Shared, s: Service, b: nat, recheck: bool)
    requires Before(t, m, Starting(s, b, Pass(recheck))) && StaticEnough(m, s)
    ensures Balanced(m, Commit(m, b), Starting(s, b, Pass(recheck)), Starting(s, b, Reserved))
  {
    hide SharedOk, NoEntries, AllFresh, HoldsOk, Known, Commit, UseDelta, CapKept;
    var m' := Commit(m, b);
    CommitLedger(m, b);
    CommitCap(m, b);
    CommitUse(m, b);
    assert CountDelta(m, m', Starting(s, b, Pass(recheck)), Starting(s, b, Reserved));
  }

  /** What fits when it is committed stays within the amount. */
  lemma CommitCap(m: Shared, b: nat)
    requires b < |m.instances| && StaticEnough(m, m.instances[b].svc)
    ensures CapKept(m, Commit(m, b))
  {
    var s, m' := m.instances[b].svc, Commit(m, b);
    CommitLedger(m, b);
    hide Commit;
    forall r | r !in m.cfg.check
      ensures Get(m'.inUse, r) <= Get(m.inUse, r) || Get(m'.inUse, r) <= Get(m.cfg.amount, r)
    {
      assert !StaticShort(m, s, r);
    }
  }

  lemma CommitUse(m: Shared, b: nat)
    requires b < |m.instances| && InReserve(m.instances[b])
    ensures UseDelta(m, Commit(m, b), b)
  {
    CommitLedger(m, b);
    hide Commit;
  }

  /** A commit adds every required amount to both ledgers. */
  lemma CommitLedger(m: Shared, b: nat)
    requires b < |m.instances|
    ensures forall r :: Get(Commit(m, b).inUse, r) == Get(m.inUse, r) + m.cfg.Need(m.instances[b].svc, r)
    ensures forall r :: Get(Commit(m, b).reserved, r) == Get(m.reserved, r) + m.cfg.Need(m.instances[b].svc, r)
    ensures Commit(m, b).instances == m.instances[b := m.instances[b].(committed := true)]
    ensures Commit(m, b).cfg == m.cfg && Commit(m, b).stats == m.stats
  {
  }

  lemma GiveBackGet(m: Shared, s: Service)
    ensures forall r :: Get(GiveBack(m, s).reserved, r) == Get(m.reserved, r) - m.cfg.Need(s, r)
  {
  }

  lemma ReleasedUse(m: Shared, m': Shared, i: nat)
    requires i < |m.instances| && !m.instances[i].released && m'.cfg == m.cfg
    requires m.instances[i].marked <==> m.instances[i].committed
    requires m'.instances == m.instances[i := m.instances[i].(released := true, timer := false)]
    requires forall r :: Get(m'.inUse, r)
                         == Get(m.inUse, r) - if m.instances[i].marked then m.cfg.Need(m.instances[i].svc, r) else 0
    ensures UseDelta(m, m', i)
  {
  }

  /** A clean-up takes out exactly what the instance put in. */
  lemma CleanUpUse(t: nat, m: Shared, i: nat)
    requires SharedOk(m) && i < |m.instances|
    requires !m.instances[i].released ==> (m.instances[i].marked <==> m.instances[i].committed)
    ensures UseDelta(m, CleanUp(m, i), i)
    ensures CleanUp(m, i).reserved == m.reserved && CleanUp(m, i).stats == m.stats
    ensures forall r :: Get(CleanUp(m, i).inUse, r) <= Get(m.inUse, r)
  {
    var x := m.instances[i];
    if x.released {
    } else {
      RequirementDeclared(m.cfg, x.svc);
      CleanUpLedger(m, i);
      assert forall r :: Get(Minus(m.inUse, m.cfg.Requirement(x.svc)), r) == Get(m.inUse, r) - m.cfg.Need(x.svc, r);
      hide CleanUp, SharedOk, Minus;
      ReleasedUse(m, CleanUp(m, i), i);
    }
  }

  lemma CleanUpLedger(m: Shared, i: nat)
    requires i < |m.instances| && !m.instances[i].released
    ensures CleanUp(m, i).inUse
            == if m.instances[i].marked then Minus(m.inUse, m.cfg.Requirement(m.instances[i].svc)) else m.inUse
    ensures CleanUp(m, i).instances == m.instances[i := m.instances[i].(released := true, timer := false)]
    ensures CleanUp(m, i).cfg == m.cfg && CleanUp(m, i).reserved == m.reserved && CleanUp(m, i).stats == m.stats
    ensures CleanUp(m, i).checks == m.checks
  {
  }

  lemma CleanUpBalanced(t: nat, m: Shared, pc: Pc, i: nat, pc': Pc)
    requires SharedOk(m) && i < |m.instances| && Subject(pc) == i
    requires !m.instances[i].released ==> (m.instances[i].marked <==> m.instances[i].committed)
    requires Debtor(pc') == Debtor(pc) && WaitsOn(pc') == WaitsOn(pc) && ProxiesTo(pc') == ProxiesTo(pc)
    ensures Balanced(m, CleanUp(m, i), pc, pc')
  {
    CleanUpUse(t, m, i);
    UnbookedDebt(m, CleanUp(m, i), pc, pc');
    UnbookedCount(m, CleanUp(m, i), pc, pc');
    hide SharedOk, CleanUp, UseDelta, DebtDelta, CountDelta, Debtor, WaitsOn, ProxiesTo, Subject;
    assert CapKept(m, CleanUp(m, i));
  }

  lemma SpawnFailedBalanced(t: nat, m: Shared, s: Service, b: nat)
    requires Before(t, m, Starting(s, b, SpawnFailed))
    ensures Balanced(m, CleanUp(GiveBack(m, s), b), Starting(s, b, SpawnFailed), Unlocking(s, b, ToGiveUp))
  {
    hide SharedOk, NoEntries, HoldsOk, Known;
    InstanceFacts(m, b);
    GiveBackLegal(t, m, s);
    GiveBackGet(m, s);
    CleanUpUse(t, GiveBack(m, s), b);
    assert Balanced(m, CleanUp(GiveBack(m, s), b), Starting(s, b, SpawnFailed), Unlocking(s, b, ToGiveUp)) by {
      EndRepays(s, b);
      assert CapKept(m, CleanUp(GiveBack(m, s), b));
      UseFrom(m, GiveBack(m, s), CleanUp(GiveBack(m, s), b), b);
      hide UseDelta, Repays, CapKept;
      RepaidBalanced(m, CleanUp(GiveBack(m, s), b), Starting(s, b, SpawnFailed), Unlocking(s, b, ToGiveUp), s);
    }
  }

  /** The ends of a start return its share and stay counted. */
  ghost predicate Repays(pc: Pc, pc': Pc, s: Service) {
    Debtor(pc) == Some(s) && Debtor(pc') == None && WaitsOn(pc') == WaitsOn(pc) && ProxiesTo(pc') == ProxiesTo(pc)
  }

  lemma EndRepays(s: Service, b: nat)
    ensures Repays(Starting(s, b, SpawnFailed), Unlocking(s, b, ToGiveUp), s)
    ensures Repays(Starting(s, b, MakingReady), Unlocking(s, b, ToConnected), s)
    ensures Repays(Returning(s, b), GivingUp(s), s)
  {
  }

  lemma RepaidBalanced(m: Shared, m': Shared, pc: Pc, pc': Pc, s: Service)
    requires Repays(pc, pc', s) && m'.stats == m.stats && CapKept(m, m') && UseDelta(m, m', Subject(pc))
    requires forall r :: Get(m'.reserved, r) == Get(m.reserved, r) - m.cfg.Need(s, r)
    ensures Balanced(m, m', pc, pc')
  {
    UnbookedCount(m, m', pc, pc');
    hide UseDelta, DebtDelta, CountDelta, CapKept, Debtor, WaitsOn, ProxiesTo, Subject;
  }

  lemma UseFrom(m: Shared, m1: Shared, m2: Shared, b: nat)
    requires m1.cfg == m.cfg && m1.instances == m.instances && m1.inUse == m.inUse && UseDelta(m1, m2, b)
    ensures UseDelta(m, m2, b)
  {
  }

  lemma ReadyBooks(m: Shared, s: Service, b: nat)
    requires Birth(m, b, s)
    ensures Balanced(m, MakeReady(m, b), Starting(s, b, MakingReady), Unlocking(s, b, ToConnected))
  {
    EndRepays(s, b);
    GiveBackGet(m, s);
    assert UseDelta(m, MakeReady(m, b), b) && CapKept(m, MakeReady(m, b));
    hide UseDelta, Repays, CapKept, Minus;
    RepaidBalanced(m, MakeReady(m, b), Starting(s, b, MakingReady), Unlocking(s, b, ToConnected), s);
  }

  lemma ReturnBalanced(m: Shared, s: Service, b: nat)
    ensures Balanced(m, GiveBack(m, s), Returning(s, b), GivingUp(s))
  {
    EndRepays(s, b);
    GiveBackGet(m, s);
    UnbookedSame(m);
    UnbookedUse(m, m, -1);
    hide Repays, Minus;
    RepaidBalanced(m, GiveBack(m, s), Returning(s, b), GivingUp(s), s);
  }

  // ---------------------------------------------------------------- all steps

  lemma PassBalanced(t: nat, a: Action, m: Shared, s: Service, b: nat, recheck: bool, m': Shared, pc': Pc)
    requires Before(t, m, Starting(s, b, Pass(recheck))) && b < |m.instances|
    requires PassStep(a, m, s, b, recheck, m', pc')
    ensures Balanced(m, m', Starting(s, b, Pass(recheck)), pc')
  {
    hide SharedOk, ThreadOk, Known, Balanced, StaticShort, MeasuredShort, Unbooked;
    if a.PassCommit? {
      CommitBalanced(t, m, s, b, recheck);
    } else {
      UnbookedSignals(m, m');
      UnbookedBalanced(m, m', Starting(s, b, Pass(recheck)), pc');
    }
  }

  lemma PendingUnbooked(a: Action, m: Shared, s: Service, b: nat, chans: map<Resource, nat>, todo: set<Resource>,
                        m': Shared, pc': Pc)
    requires PendingStep(a, m, s, b, chans, todo, m', pc')
    ensures Unbooked(m, m') && InLoop(s, b, pc')
  {
    hide Unbooked;
    UnbookedSignals(m, m');
  }

  lemma WaitFrame(t: nat, a: Action, m: Shared, s: Service, b: nat, phase: Phase, m': Shared, pc': Pc, spawn: seq<Pc>)
    requires b < |m.instances| && StartStep(t, a, m, s, b, phase, m', pc', spawn)
    requires phase.PendingDone? || phase.Lacking? || phase.Parking? || phase.Waiting? || phase.Leaving?
    ensures m' == m.(change := m'.change, first := m'.first, channels := m'.channels)
  {
    if phase.Parking? || phase.Waiting? {
      SelectFrame(t, a, m, s, b, phase, m', pc', spawn);
    } else {
      hide PassStep, PendingStep, IsVictim, Eligible, Unregister, Enlist, Take, CleanUp, Mark, SetCommand, MakeReady;
      if phase.PendingDone? {
        assert m' == m.(first := Unregister(m.first, phase.chans.Keys, s));
      } else if phase.Leaving? {
        assert m' == m.(change := Unregister(m.change, {phase.r}, s));
      } else {
        assert m' == m;
      }
      hide *;
    }
  }

  lemma SelectFrame(t: nat, a: Action, m: Shared, s: Service, b: nat, phase: Phase, m': Shared, pc': Pc, spawn: seq<Pc>)
    requires b < |m.instances| && StartStep(t, a, m, s, b, phase, m', pc', spawn) && (phase.Parking? || phase.Waiting?)
    ensures m' == m.(change := m'.change, channels := m'.channels)
  {
    assert Enlist(m, phase.r, s)
           == m.(change := Enlist(m, phase.r, s).change, channels := Enlist(m, phase.r, s).channels) by {
      hide Register;
    }
    hide PassStep, PendingStep, IsVictim, Eligible, Enlist, Take, CleanUp, Mark, SetCommand, MakeReady;
    if phase.Parking? {
      assert m' == Enlist(m, phase.r, s);
    } else if a.WaitReceive? {
      assert m' == Take(m, phase.ch);
    } else {
      assert m' == m;
    }
    hide *;
  }

  /** Still in the reservation of `s`, or in a stop on its behalf. */
  predicate InLoop(s: Service, b: nat, pc: Pc) {
    if pc.StopLookup? then pc.k == AfterEvict(s, b)
    else
      && pc.Starting? && pc.svc == s && pc.b == b
      && (pc.phase.Pass? || pc.phase.Pending? || pc.phase.PendingDone? || pc.phase.Lacking? || pc.phase.Parking?
          || pc.phase.Waiting? || pc.phase.Leaving? || pc.phase.Refused?)
  }

  lemma LoopBalanced(t: nat, a: Action, m: Shared, s: Service, b: nat, phase: Phase, m': Shared, pc': Pc,
                     spawn: seq<Pc>)
    requires Before(t, m, Starting(s, b, phase)) && b < |m.instances|
    requires StartStep(t, a, m, s, b, phase, m', pc', spawn)
    requires phase.Pass? || phase.Pending? || phase.PendingDone? || phase.Lacking? || phase.Parking? || phase.Waiting?
             || phase.Leaving?
    ensures Balanced(m, m', Starting(s, b, phase), pc')
  {
    hide Before, Balanced, PassStep, PendingStep, IsVictim, Eligible, Unbooked, Unregister, Enlist, Take;
    if phase.Pass? {
      PassBalanced(t, a, m, s, b, phase.recheck, m', pc');
    } else {
      if phase.Pending? {
        PendingUnbooked(a, m, s, b, phase.chans, phase.todo, m', pc');
      } else {
        assert Unbooked(m, m') && InLoop(s, b, pc') by {
          WaitFrame(t, a, m, s, b, phase, m', pc', spawn);
          UnbookedSignals(m, m');
          hide Unbooked, PassStep, PendingStep, IsVictim, Eligible, Unregister, Enlist, Take, CleanUp;
        }
      }
      hide StartStep, Debtor, WaitsOn, ProxiesTo;
      UnbookedBalanced(m, m', Starting(s, b, phase), pc');
    }
  }

  lemma RefuseBalanced(t: nat, m: Shared, s: Service, b: nat)
    requires Before(t, m, Starting(s, b, Refused))
    ensures Balanced(m, CleanUp(m, b), Starting(s, b, Refused), Unlocking(s, b, ToGiveUp))
  {
    hide SharedOk, NoEntries, Balanced;
    CleanUpBalanced(t, m, Starting(s, b, Refused), b, Unlocking(s, b, ToGiveUp));
  }

  lemma PhaseBalanced(t: nat, a: Action, m: Shared, s: Service, b: nat, phase: Phase, m': Shared, pc': Pc,
                      spawn: seq<Pc>)
    requires b < |m.instances| && StartStep(t, a, m, s, b, phase, m', pc', spawn)
    requires phase.Reserved? || phase.Spawning? || phase.Spawned? || phase.Probing? || phase.Connecting?
    ensures Balanced(m, m', Starting(s, b, phase), pc')
  {
    assert Unbooked(m, m') by {
      hide Unbooked, SetInstance, PassStep, PendingStep, IsVictim, Eligible, CleanUp, Unregister, Enlist;
      match phase
      case Reserved => UnbookedSet(m, b, m.instances[b].(waiting := false, marked := true));
      case Spawned => UnbookedSet(m, b, m.instances[b].(command := true));
      case Spawning => UnbookedSame(m);
      case Probing => UnbookedSame(m);
      case Connecting => UnbookedSame(m);
    }
    hide *;
    UnbookedBalanced(m, m', Starting(s, b, phase), pc');
  }

  lemma CommandBalanced(t: nat, a: Action, m: Shared, s: Service, b: nat, phase: Phase, m': Shared, pc': Pc,
                        spawn: seq<Pc>)
    requires Before(t, m, Starting(s, b, phase)) && b < |m.instances|
    requires StartStep(t, a, m, s, b, phase, m', pc', spawn)
    requires !phase.Pass? && !phase.Pending? && !phase.PendingDone? && !phase.Lacking? && !phase.Parking?
             && !phase.Waiting? && !phase.Leaving?
    ensures Balanced(m, m', Starting(s, b, phase), pc')
  {
    hide Before, Balanced, Unbooked, Debtor, WaitsOn, ProxiesTo, CleanUp, GiveBack, Mark, SetCommand, Model.MakeReady;
    if phase.Refused? {
      RefuseBalanced(t, m, s, b);
    } else if phase.SpawnFailed? {
      SpawnFailedBalanced(t, m, s, b);
    } else if phase.MakingReady? {
      assert Balanced(m, MakeReady(m, b), Starting(s, b, MakingReady), Unlocking(s, b, ToConnected)) by {
        BeforeFacts(t, m, Starting(s, b, MakingReady));
        ReadyBooks(m, s, b);
      }
    } else {
      PhaseBalanced(t, a, m, s, b, phase, m', pc', spawn);
    }
  }

  lemma SettledBooks(m: Shared, i: nat)
    requires SharedOk(m) && i < |m.instances| && Settled(m.instances[i])
    ensures !m.instances[i].released ==> m.instances[i].marked && m.instances[i].committed
  {
    InstanceFacts(m, i);
  }

  lemma ReapBalanced(t: nat, m: Shared, s: Service, i: nat)
    requires Before(t, m, Reaped(s, i))
    ensures Balanced(m, CleanUp(m, i), Reaped(s, i), Done)
  {
    SettledBooks(m, i);
    hide SharedOk, NoEntries, Balanced;
    CleanUpBalanced(t, m, Reaped(s, i), i, Done);
  }

  lemma ContPcs(k: Cont)
    ensures Debtor(ResumePc(k)) == Debt(k) && WaitsOn(ResumePc(k)) == Client(k) && ProxiesTo(ResumePc(k)) == None
  {
  }

  lemma ResumeUnbooked(m: Shared, k: Cont, m': Shared)
    requires m' == Resume(m, k)
    ensures Unbooked(m, m')
  {
    hide Unbooked, SetInstance;
    if k.AfterEvict? && k.b < |m.instances| {
      UnbookedSet(m, k.b, m.instances[k.b].(since := m.checks));
    } else {
      UnbookedSame(m);
    }
  }

  lemma LookupBalanced(m: Shared, v: Service, k: Cont, m': Shared, pc': Pc)
    requires if v in m.running then m' == m && pc' == StopWait(v, m.running[v], k)
             else m' == Resume(m, k) && pc' == ResumePc(k)
    ensures Balanced(m, m', StopLookup(v, k), pc')
  {
    ContPcs(k);
    ResumeUnbooked(m, k, Resume(m, k));
    UnbookedSame(m);
    hide Resume, ResumePc, Unbooked, Balanced;
    UnbookedBalanced(m, m', StopLookup(v, k), pc');
  }

  lemma HoldBalanced(t: nat, m: Shared, pc: Pc, m': Shared, pc': Pc)
    requires match pc
             case StopWait(v, i, k) => i < |m.instances| && m' == Acquire(m, i, t) && pc' == StopHold(v, i, k)
             case StopHold(v, i, k) => m' == m && (pc' == StopClean(v, i, k) || pc' == Unlocking(v, i, ToCont(k)))
             case _ => false
    ensures Balanced(m, m', pc, pc')
  {
    hide Acquire, Unbooked, Balanced;
    if pc.StopWait? {
      AcquireUnbooked(m, pc.i, t);
    } else {
      UnbookedSame(m);
    }
    UnbookedBalanced(m, m', pc, pc');
  }

  lemma StopBalanced(t: nat, a: Action, m: Shared, pc: Pc, m': Shared, pc': Pc, spawn: seq<Pc>)
    requires Before(t, m, pc) && Step(t, a, m, pc, m', pc', spawn)
    requires pc.StopLookup? || pc.StopWait? || pc.StopHold? || pc.StopClean?
    ensures Balanced(m, m', pc, pc')
  {
    hide Before, StartStep, ClientStep, Balanced, Acquire, CleanUp, Resume, ResumePc;
    if pc.StopLookup? {
      LookupBalanced(m, pc.victim, pc.k, m', pc');
    } else if pc.StopClean? {
      var after := Unlocking(pc.victim, pc.i, ToCont(pc.k));
      assert Balanced(m, CleanUp(m, pc.i), pc, after) by {
        CleaningFacts(t, m, pc.victim, pc.i, pc.k);
        SettledBooks(m, pc.i) by { BeforeFacts(t, m, pc); }
        assert Debtor(pc) == Debtor(after) && WaitsOn(pc) == WaitsOn(after) && ProxiesTo(pc) == ProxiesTo(after);
        assert Subject(pc) == pc.i;
        hide *;
        CleanUpBalanced(t, m, pc, pc.i, after);
      }
    } else {
      HoldBalanced(t, m, pc, m', pc');
    }
  }

  lemma UnbookedTrans(m: Shared, m1: Shared, m2: Shared)
    requires Unbooked(m, m1) && Unbooked(m1, m2)
    ensures Unbooked(m, m2)
  {
  }

  lemma UnlockBalanced(t: nat, m: Shared, s: Service, i: nat, after: Then, m': Shared)
    requires i < |m.instances| && m' == (if after.ToCont? then Resume(Free(m, i), after.k) else Free(m, i))
    ensures Balanced(m, m', Unlocking(s, i, after), UnlockedPc(s, i, after))
  {
    assert Unbooked(m, Free(m, i));
    hide Balanced, Unbooked, Free;
    if after.ToCont? {
      ContPcs(after.k);
      ResumeUnbooked(Free(m, i), after.k, m');
      UnbookedTrans(m, Free(m, i), m');
    }
    hide Resume;
    UnbookedBalanced(m, m', Unlocking(s, i, after), UnlockedPc(s, i, after));
  }

  /** Timers and processes have no accounts. */
  lemma AsideBalanced(m: Shared, pc: Pc, pc': Pc)
    requires pc.IdleFired? || pc.Reaping? || pc.Reaped?
    requires pc'.Reaped? || pc'.Done? || (pc'.StopLookup? && pc'.k.AfterIdle?)
    ensures Balanced(m, m, pc, pc')
  {
    UnbookedSame(m);
    hide Unbooked, Balanced;
    UnbookedBalanced(m, m, pc, pc');
  }

  lemma OtherBalanced(t: nat, a: Action, m: Shared, pc: Pc, m': Shared, pc': Pc, spawn: seq<Pc>)
    requires Before(t, m, pc) && Step(t, a, m, pc, m', pc', spawn)
    requires pc.Unlocking? || pc.IdleFired? || pc.Reaping? || pc.Reaped? || pc.Returning?
    ensures Balanced(m, m', pc, pc')
  {
    hide Before, StartStep, ClientStep, Balanced, Resume, UnlockedPc, Free, CleanUp, GiveBack;
    if pc.Unlocking? {
      UnlockBalanced(t, m, pc.svc, pc.i, pc.after, m');
    } else if pc.Returning? {
      ReturnBalanced(m, pc.svc, pc.b);
    } else if pc.Reaped? && pc.svc in m.cfg.stopOnExit {
      ReapBalanced(t, m, pc.svc, pc.i);
    } else {
      AsideBalanced(m, pc, pc');
    }
  }

  lemma CreateUnbooked(t: nat, a: Action, m: Shared, pc: Pc, m': Shared, pc': Pc, spawn: seq<Pc>)
    requires ClientStep(t, a, m, pc, m', pc', spawn) && pc.Inserting?
    ensures Unbooked(m, m')
  {
    hide Unbooked, Insert;
    if pc.svc in m.running {
      UnbookedSame(m);
    } else {
      UnbookedInsert(m, pc.svc, t, a.now);
    }
  }

  lemma LocalUnbooked(t: nat, a: Action, m: Shared, pc: Pc, m': Shared, pc': Pc, spawn: seq<Pc>)
    requires ClientStep(t, a, m, pc, m', pc', spawn)
    requires pc.LookingUp? || pc.Dequeued? || pc.Dialing? || pc.Restarting?
    ensures Unbooked(m, m')
  {
    hide Unbooked;
    UnbookedSame(m);
  }

  lemma ClientUnbooked(t: nat, a: Action, m: Shared, pc: Pc, m': Shared, pc': Pc, spawn: seq<Pc>)
    requires ClientStep(t, a, m, pc, m', pc', spawn) && !pc.Arriving? && !pc.Entering? && !pc.Departing?
             && !pc.GivingUp?
    ensures Unbooked(m, m')
  {
    hide Unbooked, SetInstance, Insert, TouchIf, Broadcast, Acquire, AfterCount, Count;
    if pc.Trying? || pc.Queued? {
      hide ClientStep;
      assert Unbooked(m, m') by {
        hide Unbooked, Acquire;
        if a.TryOk? || a.QueueLock? {
          AcquireUnbooked(m, pc.i, t);
        } else {
          UnbookedSame(m);
        }
      }
    } else if pc.Tracking? || pc.Connected? || pc.Proxying? || pc.Notifying? {
      hide ClientStep;
      assert Unbooked(m, m') by {
        hide Unbooked, TouchIf, Broadcast;
        if pc.Notifying? {
          BroadcastUnbooked(m, m.cfg.Requirement(pc.svc).Keys, true);
        } else {
          UnbookedTouch(m, pc.svc, a.j, a.now);
        }
      }
    } else if pc.Inserting? {
      hide ClientStep;
      CreateUnbooked(t, a, m, pc, m', pc', spawn);
    } else {
      assert pc.LookingUp? || pc.Dequeued? || pc.Dialing? || pc.Restarting?;
      hide ClientStep;
      LocalUnbooked(t, a, m, pc, m', pc', spawn);
    }
  }

  /** The moves of a client connection that leave its accounts as they are. */
  predicate Edge(pc: Pc, pc': Pc) {
    match pc
    case Notifying(s, next) => pc' == OnwardPc(s, next)
    case LookingUp(s) => (pc'.Trying? || pc'.Inserting?) && pc'.svc == s
    case Trying(s, i) => (pc'.Tracking? || pc'.Queued?) && pc'.svc == s
    case Queued(s, i) => (pc'.Dequeued? || pc'.GivingUp?) && pc'.svc == s
    case Dequeued(s, i) => pc'.Unlocking? && pc'.svc == s && (pc'.after == ToGiveUp || pc'.after == ToLookup)
    case Tracking(s, i) => pc'.Unlocking? && pc'.svc == s && pc'.after == ToDial
    case Dialing(s) => (pc'.Connected? || pc'.Restarting? || pc'.GivingUp?) && pc'.svc == s
    case Restarting(s) => pc' == StopLookup(s, AfterRestart(s)) || pc' == Inserting(s)
    case Inserting(s) => pc' == GivingUp(s) || (pc'.Starting? && pc'.svc == s && pc'.phase == Pass(true))
    case Connected(s) => pc' == Entering(s)
    case Proxying(s) => pc' == Departing(s)
    case _ => false
  }

  lemma EdgeKeeps(pc: Pc, pc': Pc)
    requires Edge(pc, pc')
    ensures Debtor(pc') == Debtor(pc)
    ensures WaitsOn(pc') == WaitsOn(pc) && ProxiesTo(pc') == ProxiesTo(pc)
  {
    match pc
    case Notifying(s, next) =>
    case _ =>
  }

  lemma BroadcastUnbooked(m: Shared, rs: set<Resource>, v: bool)
    ensures Unbooked(m, Broadcast(m, rs, v))
  {
    UnbookedSignals(m, Broadcast(m, rs, v));
  }

  lemma AcquireUnbooked(m: Shared, i: nat, t: nat)
    requires i < |m.instances|
    ensures Unbooked(m, Acquire(m, i, t))
  {
    UnbookedSet(m, i, m.instances[i].(holder := Some(t)));
  }

  lemma PlainBalanced(t: nat, a: Action, m: Shared, pc: Pc, m': Shared, pc': Pc, spawn: seq<Pc>)
    requires ClientStep(t, a, m, pc, m', pc', spawn) && !pc.Arriving? && !pc.Entering? && !pc.Departing?
             && !pc.GivingUp?
    ensures Balanced(m, m', pc, pc')
  {
    assert Debtor(pc') == Debtor(pc) && WaitsOn(pc') == WaitsOn(pc) && ProxiesTo(pc') == ProxiesTo(pc) by {
      assert Edge(pc, pc') by {
        hide SetInstance, Insert, TouchIf, Broadcast, Acquire, Debtor, WaitsOn, ProxiesTo, OnwardPc;
      }
      hide *;
      EdgeKeeps(pc, pc');
    }
    hide *;
    ClientUnbooked(t, a, m, pc, m', pc', spawn);
    UnbookedBalanced(m, m', pc, pc');
  }

  lemma ClientBalanced(t: nat, a: Action, m: Shared, pc: Pc, m': Shared, pc': Pc, spawn: seq<Pc>)
    requires Counted(m, pc) && ClientStep(t, a, m, pc, m', pc', spawn)
    ensures Balanced(m, m', pc, pc')
  {
    hide Balanced, Counted, Unbooked, Debtor, WaitsOn, ProxiesTo, Count, AfterCount;
    if pc.Arriving? {
      CountBalanced(m, pc, pc.svc, 0, 1, OnLookup);
    } else if pc.Entering? {
      CountBalanced(m, pc, pc.svc, 1, -1, OnProxy);
    } else if pc.Departing? {
      CountBalanced(m, pc, pc.svc, -1, 0, OnDone);
    } else if pc.GivingUp? {
      CountBalanced(m, pc, pc.svc, 0, -1, OnDone);
    } else {
      PlainBalanced(t, a, m, pc, m', pc', spawn);
    }
  }

  lemma RequestBalanced(t: nat, a: Action, m: Shared, pc: Pc, m': Shared, pc': Pc, spawn: seq<Pc>)
    requires Counted(m, pc) && Step(t, a, m, pc, m', pc', spawn)
    requires !pc.Starting? && !pc.StopLookup? && !pc.StopWait? && !pc.StopHold? && !pc.StopClean?
    requires !pc.Unlocking? && !pc.IdleFired? && !pc.Reaping? && !pc.Reaped? && !pc.Returning?
    ensures Balanced(m, m', pc, pc')
  {
    hide Balanced, Counted, ClientStep, StartStep;
    ClientBalanced(t, a, m, pc, m', pc', spawn);
  }

  lemma StartBalanced(t: nat, a: Action, m: Shared, pc: Pc, m': Shared, pc': Pc, spawn: seq<Pc>)
    requires Before(t, m, pc) && Step(t, a, m, pc, m', pc', spawn) && pc.Starting?
    ensures Balanced(m, m', pc, pc')
  {
    hide SharedOk, ThreadOk, Known, StartStep, ClientStep, Balanced;
    var Starting(s, b, phase) := pc;
    if phase.Pass? || phase.Pending? || phase.PendingDone? || phase.Lacking? || phase.Parking? || phase.Waiting?
       || phase.Leaving? {
      LoopBalanced(t, a, m, s, b, phase, m', pc', spawn);
    } else {
      CommandBalanced(t, a, m, s, b, phase, m', pc', spawn);
    }
  }

  /** Every step books what it does. */
  lemma StepBalanced(t: nat, a: Action, m: Shared, pc: Pc, m': Shared, pc': Pc, spawn: seq<Pc>)
    requires Before(t, m, pc) && Counted(m, pc) && Step(t, a, m, pc, m', pc', spawn)
    ensures Balanced(m, m', pc, pc')
  {
    hide *;
    if pc.Starting? {
      StartBalanced(t, a, m, pc, m', pc', spawn);
    } else if pc.StopLookup? || pc.StopWait? || pc.StopHold? || pc.StopClean? {
      StopBalanced(t, a, m, pc, m', pc', spawn);
    } else if pc.Unlocking? || pc.IdleFired? || pc.Reaping? || pc.Reaped? || pc.Returning? {
      OtherBalanced(t, a, m, pc, m', pc', spawn);
    } else {
      RequestBalanced(t, a, m, pc, m', pc', spawn);
    }
  }
}
