/** When a service was last used, read off the labels of a run, and what that says about victims. */
module Recency {
  import opened Model
  import opened Machine
  import opened Invariant
  import opened Reachable
  import opened LedgerTheorems
  import opened WaiterTheorems
  import opened Records
  import opened EvictionTheorems
  import opened Stages

  // ---------------------------------------------------------------- uses

  /** The goroutine at `pc` serves a connection to service `q`. */
  predicate Serves(pc: Pc, q: Service) {
    WaitsOn(pc) == Some(q) || ProxiesTo(pc) == Some(q)
  }

  predicate IsUse(a: Action) {
    a.Track? || a.Used? || a.Forwarded?
  }

  function UseTime(l: Label): Option<int> {
    if l.Do? && (l.a.Create? || IsUse(l.a)) then Some(l.a.now) else None
  }

  /** Step `l` inserts instance `i`, or records that a connection to its service uses it. */
  ghost predicate Uses(s: State, l: Label, s': State, i: nat) {
    && l.Do?
    && if i < |s.m.instances|
       then IsUse(l.a) && l.a.j == i && l.t < |s.threads| && Serves(s.threads[l.t], s.m.instances[i].svc)
       else l.a.Create? && i < |s'.m.instances|
  }

  /** Step `p` is the last before state `k` that uses instance `i`. */
  ghost predicate LastUse(run: seq<State>, labels: seq<Label>, k: nat, i: nat, p: nat)
    requires k < |run| == |labels| + 1
  {
    && p < k && Uses(run[p], labels[p], run[p + 1], i)
    && forall q :: p < q < k ==> !Uses(run[q], labels[q], run[q + 1], i)
  }

  lemma StartUsesNot(t: nat, a: Action, m: Shared, s: Service, b: nat, phase: Phase, m': Shared, pc': Pc,
                     spawn: seq<Pc>)
    requires b < |m.instances| && StartStep(t, a, m, s, b, phase, m', pc', spawn)
    ensures !IsUse(a)
  {
    hide IsVictim, Eligible, CleanUp, MakeReady, Mark, SetCommand, GiveBack, Unregister, Enlist, Take, PassCommits,
         PassLacks, PassAsks, FreshChannels, Asked, Commit;
  }

  lemma CountUsesNot(t: nat, a: Action, m: Shared, pc: Pc, m': Shared, pc': Pc, spawn: seq<Pc>)
    requires ClientStep(t, a, m, pc, m', pc', spawn)
    requires pc.Notifying? || pc.Arriving? || pc.Entering? || pc.Departing? || pc.GivingUp?
    ensures !IsUse(a)
  {
    hide Count, Broadcast, AfterCount, OnwardPc;
  }

  lemma RequestUsesNot(t: nat, a: Action, m: Shared, pc: Pc, m': Shared, pc': Pc, spawn: seq<Pc>)
    requires ClientStep(t, a, m, pc, m', pc', spawn) && !pc.Tracking? && !pc.Connected? && !pc.Proxying?
    requires !pc.Notifying? && !pc.Arriving? && !pc.Entering? && !pc.Departing? && !pc.GivingUp?
    ensures !IsUse(a)
  {
    hide Acquire, Insert;
  }

  lemma ClientUses(t: nat, a: Action, m: Shared, pc: Pc, m': Shared, pc': Pc, spawn: seq<Pc>)
    requires ClientStep(t, a, m, pc, m', pc', spawn) && (pc.Tracking? || pc.Connected? || pc.Proxying?)
    ensures (pc.Tracking? && a.Track?) || (pc.Connected? && a.Used?) || (pc.Proxying? && a.Forwarded?)
    ensures Finds(m, pc.svc, a.j)
  {
    hide TouchIf, Finds;
  }

  /** A use is recorded by a connection to a service, and for an instance of it, if the service is registered. */
  lemma StepUses(t: nat, a: Action, m: Shared, pc: Pc, m': Shared, pc': Pc, spawn: seq<Pc>)
    requires Step(t, a, m, pc, m', pc', spawn) && IsUse(a)
    ensures (pc.Tracking? && a.Track?) || (pc.Connected? && a.Used?) || (pc.Proxying? && a.Forwarded?)
    ensures Finds(m, pc.svc, a.j) && Serves(pc, pc.svc)
  {
    hide StartStep, ClientStep, CleanUp, Resume, ResumePc, UnlockedPc, Free, Acquire, CanBeStopped, Finds;
    if pc.Starting? {
      StartUsesNot(t, a, m, pc.svc, pc.b, pc.phase, m', pc', spawn);
    } else if pc.Tracking? || pc.Connected? || pc.Proxying? {
      ClientUses(t, a, m, pc, m', pc', spawn);
    } else if pc.Notifying? || pc.Arriving? || pc.Entering? || pc.Departing? || pc.GivingUp? {
      CountUsesNot(t, a, m, pc, m', pc', spawn);
    } else if ClientStep(t, a, m, pc, m', pc', spawn) {
      RequestUsesNot(t, a, m, pc, m', pc', spawn);
    }
  }

  /** The step records the use of `i` if and only if it names it for a connection to its service. */
  lemma UseWrites(s: State, l: Label, s': State, i: nat)
    requires Next(s, l, s') && i < |s.m.instances| && l.Do? && IsUse(l.a)
    ensures Writes(s, l, s') == i <==> Uses(s, l, s', i)
  {
    hide Step;
    StepUses(l.t, l.a, s.m, s.threads[l.t], s'.m, s'.threads[l.t], s'.threads[|s.threads|..]);
  }

  lemma UseNow(s: State, l: Label, s': State, i: nat)
    requires Next(s, l, s') && i < |s'.m.instances|
    ensures if Uses(s, l, s', i) then UseTime(l) == Some(s'.m.instances[i].lastUsed)
            else i < |s.m.instances| && s'.m.instances[i].lastUsed == s.m.instances[i].lastUsed
  {
    RecordNext(s, l, s', i);
    hide Next, Writes, Written, Serves;
    if i < |s.m.instances| && l.Do? && IsUse(l.a) {
      UseWrites(s, l, s', i);
    }
  }

  /** In every state of every run `lastUsed` is the time of the last step that inserted the instance or recorded
      that a connection to its service uses it. */
  lemma {:induction false} LastUsedIsLastUse(run: seq<State>, labels: seq<Label>, k: nat, i: nat) returns (p: nat)
    requires IsRun(run, labels) && k < |run| && i < |run[k].m.instances|
    ensures LastUse(run, labels, k, i, p) && UseTime(labels[p]) == Some(run[k].m.instances[i].lastUsed)
  {
    hide *;
    StepBefore(run, labels, k, i);
    UseNow(run[k - 1], labels[k - 1], run[k], i);
    if i < |run[k - 1].m.instances| && !Uses(run[k - 1], labels[k - 1], run[k], i) {
      p := LastUsedIsLastUse(run, labels, k - 1, i);
      LastUseStays(run, labels, k, i, p);
    } else {
      p := k - 1;
      LastUseNow(run, labels, k, i);
    }
  }

  lemma LastUseNow(run: seq<State>, labels: seq<Label>, k: nat, i: nat)
    requires 0 < k < |run| == |labels| + 1 && Uses(run[k - 1], labels[k - 1], run[k], i)
    ensures LastUse(run, labels, k, i, k - 1)
  {
  }

  lemma LastUseStays(run: seq<State>, labels: seq<Label>, k: nat, i: nat, p: nat)
    requires 0 < k < |run| == |labels| + 1 && !Uses(run[k - 1], labels[k - 1], run[k], i)
    requires LastUse(run, labels, k - 1, i, p)
    ensures LastUse(run, labels, k, i, p)
  {
    hide Uses;
    forall q | p < q < k ensures !Uses(run[q], labels[q], run[q + 1], i) {
      if q == k - 1 {
        assert run[q + 1] == run[k];
      }
    }
  }

  /** A connection that is about to be counted as forwarded, or about to leave. */
  predicate AtAnEnd(pc: Pc) {
    pc.Entering? || pc.Departing?
  }

  /** A connection records a use before it is counted as forwarded and before it ends: of the registered instance of its
      service, or of one that was released in between, unless the service is not registered. */
  lemma UsesRecorded(run: seq<State>, labels: seq<Label>, k: nat, t: nat, a: Action)
    requires IsRun(run, labels) && k < |labels| && labels[k] == Do(t, a)
    requires t < |run[k + 1].threads| && AtAnEnd(run[k + 1].threads[t])
    ensures t < |run[k].threads| && IsUse(a) && Serves(run[k].threads[t], run[k + 1].threads[t].svc)
    ensures var s, q := run[k], run[k + 1].threads[t].svc;
            q in s.m.running ==>
              && a.j < |s.m.instances| && Uses(s, labels[k], run[k + 1], a.j)
              && (a.j == s.m.running[q] || s.m.instances[a.j].released)
  {
    var s, s' := run[k], run[k + 1];
    assert Next(s, labels[k], s');
    RunInv(run, labels, k);
    assert RegistryOk(s.m);
    hide Step, Inv, IsRun, Next;
    var spawn := s'.threads[|s.threads|..];
    StepLeads(t, a, s.m, s.threads[t], s'.m, s'.threads[t], spawn);
    StepUses(t, a, s.m, s.threads[t], s'.m, s'.threads[t], spawn);
  }

  // ---------------------------------------------------------------- victims

  /** The service `v` is registered, uses `r` and is not `q`; nobody manages it and nobody is forwarded to it. */
  ghost predicate Disposable(s: State, q: Service, r: Resource, v: Service) {
    && v in s.m.running && s.m.running[v] < |s.m.instances| && v != q && s.m.cfg.Need(v, r) != 0
    && s.m.instances[s.m.running[v]].holder.None? && Unused(s, v)
  }

  lemma EligibleDisposable(run: seq<State>, labels: seq<Label>, k: nat, q: Service, r: Resource, now: int, v: Service)
    requires IsRun(run, labels) && k < |run|
    ensures Eligible(run[k].m, q, r, now, v)
            <==> Disposable(run[k], q, r, v) && run[k].m.instances[run[k].m.running[v]].lastUsed < now
    ensures v in run[k].m.running ==> run[k].m.running[v] < |run[k].m.instances|
  {
    hide IsRun, CanBeStopped, Unused;
    if v in run[k].m.running {
      FreeMeansStarted(run, labels, k, v);
      StoppableMeansUnused(run, labels, k, v, run[k].m.running[v]);
    }
  }

  /** The registered service `v` was last used at the time `at`. */
  ghost predicate UsedAt(run: seq<State>, labels: seq<Label>, k: nat, v: Service, at: int)
    requires k < |run| == |labels| + 1
  {
    v in run[k].m.running
    && exists p: nat :: LastUse(run, labels, k, run[k].m.running[v], p) && UseTime(labels[p]) == Some(at)
  }

  /** The history tells what the record says. */
  lemma UsedAtIs(run: seq<State>, labels: seq<Label>, k: nat, v: Service, at: int)
    requires IsRun(run, labels) && k < |run| && v in run[k].m.running && run[k].m.running[v] < |run[k].m.instances|
    ensures UsedAt(run, labels, k, v, at) <==> LastUsed(run[k].m, v) == at
  {
    assert |run| == |labels| + 1;
    hide IsRun, LastUse;
    var i := run[k].m.running[v];
    var p := LastUsedIsLastUse(run, labels, k, i);
    forall u: nat | LastUse(run, labels, k, i, u) ensures u == p {
    }
  }

  lemma UsedAtNow(run: seq<State>, labels: seq<Label>, k: nat, v: Service, at: int)
    requires IsRun(run, labels) && k < |run| && UsedAt(run, labels, k, v, at)
    ensures v in run[k].m.running && run[k].m.running[v] < |run[k].m.instances| && LastUsed(run[k].m, v) == at
  {
    hide IsRun, LastUse;
    FreeMeansStarted(run, labels, k, v);
    UsedAtIs(run, labels, k, v, at);
  }

  /** Every victim uses the resource that the goroutine's last pass found missing and could be stopped, and nobody
      else who could be was last used before it. */
  lemma VictimIsOldest(run: seq<State>, labels: seq<Label>, k: nat, t: nat) returns (p: nat, at: int)
    requires IsRun(run, labels) && k < |labels| && Picks(labels[k], t)
    ensures t < |run[k].threads| && run[k].threads[t].Starting? && run[k].threads[t].phase.Lacking?
    ensures var q, r, v, now := run[k].threads[t].svc, run[k].threads[t].phase.r, labels[k].a.v, labels[k].a.now;
            && p < k && labels[p] == Do(t, PassLack(r)) && t < |run[p].threads|
            && Seeks(PassLack(r), run[p].m, run[p].threads[t], run[k].threads[t])
            && Disposable(run[k], q, r, v) && UsedAt(run, labels, k, v, at) && at < now
            && forall w, before :: Disposable(run[k], q, r, w) && UsedAt(run, labels, k, w, before) && before < now ==>
                 at <= before
  {
    PickStarts(run, labels, k, t);
    p := SeekOrigin(run, labels, k, t);
    var s, q, r, v, now := run[k], run[k].threads[t].svc, run[k].threads[t].phase.r, labels[k].a.v, labels[k].a.now;
    assert IsVictim(s.m, q, r, now, v);
    at := LastUsed(s.m, v);
    hide IsRun, Disposable, Eligible, UsedAt, Chooses;
    EligibleDisposable(run, labels, k, q, r, now, v);
    UsedAtIs(run, labels, k, v, at);
    forall w, before | Disposable(s, q, r, w) && UsedAt(run, labels, k, w, before) && before < now
      ensures at <= before
    {
      EligibleDisposable(run, labels, k, q, r, now, w);
      UsedAtNow(run, labels, k, w, before);
    }
  }

  /** A reservation registers to wait only after a search in which everybody else who uses the missing resource was
      managed by somebody, had a connection, or was last used at the time of the search or later. */
  lemma WaitMeansNobody(run: seq<State>, labels: seq<Label>, k: nat, t: nat) returns (p: nat)
    requires IsRun(run, labels) && k < |run| && t < |run[k].threads|
    requires run[k].threads[t].Starting? && run[k].threads[t].phase.Parking?
    ensures p < k && labels[p].Do? && labels[p].t == t && labels[p].a.EvictNone?
    ensures var q, r := run[k].threads[t].svc, run[k].threads[t].phase.r;
            forall w, before :: Disposable(run[p], q, r, w) && UsedAt(run, labels, p, w, before) ==>
              before >= labels[p].a.now
  {
    p := SeekOrigin(run, labels, k, t);
    var q, r, now := run[k].threads[t].svc, run[k].threads[t].phase.r, labels[p].a.now;
    assert |run| == |labels| + 1;
    hide IsRun, Disposable, Eligible, UsedAt;
    forall w, before | Disposable(run[p], q, r, w) && UsedAt(run, labels, p, w, before) ensures before >= now {
      EligibleDisposable(run, labels, p, q, r, now, w);
      UsedAtNow(run, labels, p, w, before);
    }
  }
}
