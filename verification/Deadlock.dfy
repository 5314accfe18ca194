/** The wait-for relation over the manageMutexes has no cycle, and at the end of every chain of
    waiting goroutines stands one that can move. */
module Deadlock {
  import opened Model
  import opened Machine
  import opened Invariant
  import opened Steps
  import opened Reachable

  /** The manageMutex a goroutine at `pc` is blocked on unless it is free. */
  function Target(pc: Pc): Option<nat> {
    match pc
    case Queued(_, i) => Some(i)
    case StopWait(_, i, _) => Some(i)
    case _ => None
  }

  /** Goroutine `t` waits for a manageMutex that `u` has taken. */
  ghost predicate WaitsFor(s: State, t: nat, u: nat) {
    && t < |s.threads| && Target(s.threads[t]).Some?
    && Target(s.threads[t]).value < |s.m.instances|
    && s.m.instances[Target(s.threads[t]).value].holder == Some(u)
  }

  ghost predicate Blocked(s: State, t: nat) {
    exists u :: WaitsFor(s, t, u)
  }

  ghost predicate Chain(s: State, path: seq<nat>) {
    |path| > 0 && forall j :: 0 <= j < |path| - 1 ==> WaitsFor(s, path[j], path[j + 1])
  }

  /** Goroutine `t` has a step. */
  ghost predicate CanMove(s: State, t: nat) {
    t < |s.threads| && exists a, m', pc', spawn :: Step(t, a, s.m, s.threads[t], m', pc', spawn)
  }

  /** The birth of the instance whose reservation waits for a victim's mutex. */
  function Rank(pc: Pc): int {
    match pc
    case StopWait(_, _, AfterEvict(_, b)) => b
    case _ => -1
  }

  /** A waited-for goroutine that waits itself reserves for an instance born later than any
      reservation waiting for it. */
  lemma RankGrows(s: State, t: nat, u: nat, v: nat)
    requires Inv(s) && WaitsFor(s, t, u) && WaitsFor(s, u, v)
    ensures Rank(s.threads[t]) < Rank(s.threads[u]) < |s.m.instances|
  {
    var j := Target(s.threads[t]).value;
    assert u < |s.threads|;
    assert Known(s.m, u, s.threads[u]);
    assert ThreadOk(s.m, u, s.threads[u]);
    assert ThreadOk(s.m, t, s.threads[t]);
    hide Inv, ThreadsOk, NoEntries;
    assert j in Holds(s.threads[u]);
  }

  function RankAt(s: State, t: nat): int {
    if t < |s.threads| then Rank(s.threads[t]) else -1
  }

  lemma ChainRanks(s: State, path: seq<nat>, j: nat)
    requires Inv(s) && Chain(s, path) && 0 < j < |path| && Blocked(s, path[|path| - 1])
    ensures RankAt(s, path[0]) < RankAt(s, path[j])
  {
    hide Inv, Rank;
    assert WaitsFor(s, path[j - 1], path[j]);
    if j == |path| - 1 {
      var v :| WaitsFor(s, path[j], v);
      RankGrows(s, path[j - 1], path[j], v);
    } else {
      assert WaitsFor(s, path[j], path[j + 1]);
      RankGrows(s, path[j - 1], path[j], path[j + 1]);
    }
    if j > 1 {
      ChainRanks(s, path, j - 1);
    }
  }

  /** In no reachable state do goroutines wait for each other in a circle. */
  lemma NoCycle(run: seq<State>, labels: seq<Label>, k: nat, path: seq<nat>)
    requires IsRun(run, labels) && k < |run| && Chain(run[k], path) && |path| > 1
    ensures path[0] != path[|path| - 1]
  {
    RunInv(run, labels, k);
    hide Inv;
    if path[0] == path[|path| - 1] {
      assert WaitsFor(run[k], path[0], path[1]);
      ChainRanks(run[k], path, |path| - 1);
    }
  }

  // ---------------------------------------------------------------- progress

  /** Channels for a pass that asks: one number for every resource. */
  lemma Numbering(rs: set<Resource>, base: nat) returns (chans: map<Resource, nat>)
    ensures chans.Keys == rs
    ensures forall r :: r in chans ==> base <= chans[r] < base + |rs|
    ensures forall r, q :: r in chans && q in chans && chans[r] == chans[q] ==> r == q
  {
    if rs == {} {
      chans := map[];
    } else {
      var r :| r in rs;
      var rest := Numbering(rs - {r}, base);
      chans := rest[r := base + |rs| - 1];
    }
  }

  /** The channels and registrations of a pass that asks. */
  ghost function AskedFirst(m: Shared, s: Service, chans: map<Resource, nat>): Registry {
    map r | r in m.first.Keys + chans.Keys ::
      if r in chans then (if r in m.first then m.first[r] else map[])[s := chans[r]] else m.first[r]
  }

  lemma AskedFirstEntries(m: Shared, s: Service, chans: map<Resource, nat>)
    ensures forall r, q :: Entry(AskedFirst(m, s, chans), r, q)
                           == if r in chans && q == s then Some(chans[r]) else Entry(m.first, r, q)
  {
  }

  /** The channels and registrations of a pass that asks. */
  lemma Asking(m: Shared, s: Service, chans: map<Resource, nat>) returns (m': Shared)
    requires FreshChannels(m, s, chans)
    ensures Asked(m, s, chans, m')
  {
    var channels := NewChannels(m, s, chans);
    m' := m.(first := AskedFirst(m, s, chans), channels := channels);
    hide FreshChannels, AskedFirst, Entry;
    AskedFirstEntries(m, s, chans);
  }

  lemma NewChannels(m: Shared, s: Service, chans: map<Resource, nat>) returns (channels: seq<Channel>)
    requires FreshChannels(m, s, chans)
    ensures |channels| == |m.channels| + |chans|
    ensures forall k :: 0 <= k < |m.channels| ==> channels[k] == m.channels[k]
    ensures forall r :: r in chans && chans[r] < |channels| ==> channels[chans[r]] == Channel(FirstKey(r, s), None)
  {
    var added := seq(|chans|, k requires 0 <= k < |chans| => NewChannel(m, s, chans, |m.channels| + k));
    channels := m.channels + added;
    forall r | r in chans && chans[r] < |channels| ensures channels[chans[r]] == Channel(FirstKey(r, s), None) {
      assert channels[chans[r]] == added[chans[r] - |m.channels|] == NewChannel(m, s, chans, chans[r]);
    }
  }

  ghost function NewChannel(m: Shared, s: Service, chans: map<Resource, nat>, id: nat): (c: Channel)
    requires FreshChannels(m, s, chans)
    ensures forall r :: r in chans && chans[r] == id ==> c == Channel(FirstKey(r, s), None)
  {
    if r: Resource :| r in chans && chans[r] == id then Channel(FirstKey(r, s), None)
    else Channel(FirstKey("", s), None)
  }

  lemma LackMoves(m: Shared, s: Service, b: nat, recheck: bool, r: Resource)
    requires b < |m.instances| && PassLacks(m, s, recheck, r)
    ensures PassStep(PassLack(r), m, s, b, recheck, m.(first := Unregister(m.first, m.first.Keys, s)),
                     Starting(s, b, Lacking(r)))
  {
  }

  lemma AskMoves(m: Shared, s: Service, b: nat, recheck: bool)
    requires b < |m.instances| && PassAsks(m, s, recheck)
    ensures exists chans, m', pc' :: PassStep(PassAsk(chans), m, s, b, recheck, m', pc')
  {
    var chans := Numbering(m.cfg.Measured(s), |m.channels|);
    assert |chans| == |chans.Keys|;
    var m' := Asking(m, s, chans);
    hide Asked, FreshChannels, StaticShort, MeasuredShort;
    assert PassStep(PassAsk(chans), m, s, b, recheck, m', Starting(s, b, Pending(chans, chans.Keys)));
  }

  lemma CommitMoves(m: Shared, s: Service, b: nat, recheck: bool)
    requires b < |m.instances| && PassCommits(m, s, recheck)
    ensures PassStep(PassCommit, m, s, b, recheck, Commit(m, b), Starting(s, b, Reserved))
  {
  }

  /** The outcomes of a pass leave no case out. */
  lemma PassMoves(m: Shared, s: Service, b: nat, recheck: bool)
    requires b < |m.instances|
    ensures exists a, m', pc' :: PassStep(a, m, s, b, recheck, m', pc')
  {
    hide PassStep, StaticShort, MeasuredShort;
    if r :| PassLacks(m, s, recheck, r) {
      LackMoves(m, s, b, recheck, r);
    } else {
      assert StaticEnough(m, s) by {
        forall r ensures !StaticShort(m, s, r) { assert !PassLacks(m, s, recheck, r); }
      }
      if PassAsks(m, s, recheck) {
        AskMoves(m, s, b, recheck);
      } else {
        assert PassCommits(m, s, recheck) by {
          forall r ensures !recheck ==> !MeasuredShort(m, s, r) { assert !PassLacks(m, s, recheck, r); }
        }
        CommitMoves(m, s, b, recheck);
      }
    }
  }

  /** Some eligible service was used least recently, if any is eligible. */
  lemma VictimExists(m: Shared, vs: set<Service>) returns (v: Service)
    requires vs != {} && forall w :: w in vs ==> w in m.running && m.running[w] < |m.instances|
    ensures v in vs && forall w :: w in vs ==> LastUsed(m, v) <= LastUsed(m, w)
  {
    v :| v in vs;
    if vs != {v} {
      assert vs == (vs - {v}) + {v};
      var w := VictimExists(m, vs - {v});
      if LastUsed(m, w) < LastUsed(m, v) {
        v := w;
      }
    }
  }

  lemma LackingMoves(t: nat, m: Shared, s: Service, b: nat, r: Resource)
    requires b < |m.instances|
    ensures exists a, pc' :: StartStep(t, a, m, s, b, Lacking(r), m, pc', [])
  {
    var now := 0;
    if v0 :| Eligible(m, s, r, now, v0) {
      var vs := set v | v in m.running && Eligible(m, s, r, now, v);
      assert v0 in vs;
      var v := VictimExists(m, vs);
      assert forall w :: Eligible(m, s, r, now, w) ==> w in vs;
      assert IsVictim(m, s, r, now, v);
      assert StartStep(t, EvictPick(v, now), m, s, b, Lacking(r), m, StopLookup(v, AfterEvict(s, b)), []);
    } else {
      assert StartStep(t, EvictNone(now), m, s, b, Lacking(r), m, Starting(s, b, Parking(r)), []);
    }
  }

  lemma PassIsStep(t: nat, m: Shared, s: Service, b: nat, recheck: bool)
    requires b < |m.instances| && exists a, m', pc' :: PassStep(a, m, s, b, recheck, m', pc')
    ensures exists a, m', pc' :: StartStep(t, a, m, s, b, Pass(recheck), m', pc', [])
  {
    hide PassStep;
    var a, m', pc' :| PassStep(a, m, s, b, recheck, m', pc');
    assert StartStep(t, a, m, s, b, Pass(recheck), m', pc', []);
  }

  lemma PendingMoves(t: nat, m: Shared, s: Service, b: nat, chans: map<Resource, nat>, todo: set<Resource>)
    requires b < |m.instances|
    ensures exists a, m', pc' :: StartStep(t, a, m, s, b, Pending(chans, todo), m', pc', [])
  {
    if todo == {} {
      assert StartStep(t, PendingFinish, m, s, b, Pending(chans, todo), m,
                       Starting(s, b, PendingDone(chans, true)), []);
    } else {
      assert StartStep(t, PendingAbort, m, s, b, Pending(chans, todo), m,
                       Starting(s, b, PendingDone(chans, false)), []);
    }
  }

  lemma DropMoves(t: nat, m: Shared, s: Service, b: nat, chans: map<Resource, nat>, ok: bool)
    requires b < |m.instances|
    ensures exists a, m', pc' :: StartStep(t, a, m, s, b, PendingDone(chans, ok), m', pc', [])
  {
    assert StartStep(t, PendingDrop, m, s, b, PendingDone(chans, ok), m.(first := Unregister(m.first, chans.Keys, s)),
                     Starting(s, b, if ok then Pass(false) else Refused), []);
  }

  lemma ParkMoves(t: nat, m: Shared, s: Service, b: nat, r: Resource)
    requires b < |m.instances|
    ensures exists a, m', pc' :: StartStep(t, a, m, s, b, Parking(r), m', pc', [])
  {
    assert StartStep(t, Park, m, s, b, Parking(r), Enlist(m, r, s), Starting(s, b, Waiting(r, |m.channels|)), []);
  }

  lemma WaitMoves(t: nat, m: Shared, s: Service, b: nat, r: Resource, ch: nat)
    requires b < |m.instances|
    ensures exists a, m', pc' :: StartStep(t, a, m, s, b, Waiting(r, ch), m', pc', [])
  {
    assert StartStep(t, WaitAbort, m, s, b, Waiting(r, ch), m, Starting(s, b, Leaving(r, None)), []);
  }

  lemma LeaveMoves(t: nat, m: Shared, s: Service, b: nat, r: Resource, signal: Option<bool>)
    requires b < |m.instances|
    ensures exists a, m', pc' :: StartStep(t, a, m, s, b, Leaving(r, signal), m', pc', [])
  {
    assert StartStep(t, Leave, m, s, b, Leaving(r, signal), m.(change := Unregister(m.change, {r}, s)),
                     Starting(s, b, if signal.Some? then Pass(signal.value) else Refused), []);
  }

  lemma LoopMoves(t: nat, m: Shared, s: Service, b: nat, phase: Phase)
    requires b < |m.instances|
    requires phase.Pass? || phase.Pending? || phase.PendingDone? || phase.Lacking? || phase.Parking? || phase.Waiting?
             || phase.Leaving?
    ensures exists a, m', pc' :: StartStep(t, a, m, s, b, phase, m', pc', [])
  {
    hide *;
    match phase
    case Pass(recheck) =>
      PassMoves(m, s, b, recheck);
      PassIsStep(t, m, s, b, recheck);
    case Pending(chans, todo) => PendingMoves(t, m, s, b, chans, todo);
    case Lacking(r) =>
      LackingMoves(t, m, s, b, r);
      var a, pc' :| StartStep(t, a, m, s, b, Lacking(r), m, pc', []);
      assert StartStep(t, a, m, s, b, phase, m, pc', []);
    case PendingDone(chans, ok) => DropMoves(t, m, s, b, chans, ok);
    case Parking(r) => ParkMoves(t, m, s, b, r);
    case Waiting(r, ch) => WaitMoves(t, m, s, b, r, ch);
    case Leaving(r, signal) => LeaveMoves(t, m, s, b, r, signal);
  }

  lemma CommandMoves(t: nat, m: Shared, s: Service, b: nat, phase: Phase)
    requires b < |m.instances|
    requires !phase.Pass? && !phase.Pending? && !phase.PendingDone? && !phase.Lacking? && !phase.Parking?
             && !phase.Waiting? && !phase.Leaving?
    ensures exists a, m', pc', spawn :: StartStep(t, a, m, s, b, phase, m', pc', spawn)
  {
    hide CleanUp, IsVictim, Eligible;
    match phase
    case Refused => assert StartStep(t, Refuse, m, s, b, phase, CleanUp(m, b), Unlocking(s, b, ToGiveUp), []);
    case Reserved => assert StartStep(t, Confirm, m, s, b, phase, Mark(m, b), Starting(s, b, Spawning), []);
    case Spawning => assert StartStep(t, Spawn(true), m, s, b, phase, m, Starting(s, b, Spawned), []);
    case SpawnFailed =>
      assert StartStep(t, SpawnCleanUp, m, s, b, phase, CleanUp(GiveBack(m, s), b), Unlocking(s, b, ToGiveUp), []);
    case Spawned =>
      assert StartStep(t, SpawnRecord, m, s, b, phase, SetCommand(m, b), Starting(s, b, Probing), [Reaping(s, b)]);
    case Probing => assert StartStep(t, Probe(true), m, s, b, phase, m, Starting(s, b, Connecting), []);
    case Connecting => assert StartStep(t, Connect(true), m, s, b, phase, m, Starting(s, b, MakingReady), []);
    case MakingReady => assert StartStep(t, Ready, m, s, b, phase, MakeReady(m, b), Unlocking(s, b, ToConnected), []);
  }

  /** A goroutine that holds a manageMutex and is not blocked on another has a step. */
  lemma HolderMoves(s: State, t: nat, i: nat)
    requires Inv(s) && t < |s.threads| && !Blocked(s, t)
    requires i < |s.m.instances| && s.m.instances[i].holder == Some(t)
    ensures CanMove(s, t)
  {
    var m, pc := s.m, s.threads[t];
    assert Known(m, t, pc) && ThreadOk(m, t, pc);
    hide Inv, Known, NoEntries;
    assert i in Holds(pc);
    match pc
    case Starting(q, b, phase) =>
      StartMoves(t, m, q, b, phase);
      hide StartStep;
      var a, m', pc', spawn :| StartStep(t, a, m, q, b, phase, m', pc', spawn);
      assert Step(t, a, m, pc, m', pc', spawn);
    case _ => StopMoves(s, t);
  }

  lemma StartMoves(t: nat, m: Shared, s: Service, b: nat, phase: Phase)
    requires b < |m.instances| && PhaseOk(m, s, b, phase)
    ensures exists a, m', pc', spawn :: StartStep(t, a, m, s, b, phase, m', pc', spawn)
  {
    hide StartStep, PhaseOk;
    if phase.Pass? || phase.Pending? || phase.PendingDone? || phase.Lacking? || phase.Parking? || phase.Waiting?
       || phase.Leaving? {
      LoopMoves(t, m, s, b, phase);
      var a, m', pc' :| StartStep(t, a, m, s, b, phase, m', pc', []);
    } else {
      CommandMoves(t, m, s, b, phase);
    }
  }

  lemma StopMoves(s: State, t: nat)
    requires t < |s.threads| && ThreadOk(s.m, t, s.threads[t]) && !Blocked(s, t)
    requires Holds(s.threads[t]) != {} && !s.threads[t].Starting?
    ensures CanMove(s, t)
  {
    var m, pc := s.m, s.threads[t];
    hide NoEntries, CleanUp, StartStep, ClientStep, Resume, PhaseOk;
    match pc
    case Dequeued(q, i) =>
      assert ClientStep(t, QueueRelease(false), m, pc, m, Unlocking(q, i, ToLookup), []) by { QueueMoves(t, m, q, i); }
      assert Step(t, QueueRelease(false), m, pc, m, Unlocking(q, i, ToLookup), []);
    case Tracking(q, i) =>
      assert Step(t, Track(i, 0), m, pc, TouchIf(m, q, i, 0), Unlocking(q, i, ToDial), []);
    case Unlocking(q, i, after) =>
      assert Step(t, Unlock, m, pc, if after.ToCont? then Resume(Free(m, i), after.k) else Free(m, i),
                  UnlockedPc(q, i, after), []);
    case StopLookup(v, k) =>
      if v in m.running {
        assert Step(t, StopFind, m, pc, m, StopWait(v, m.running[v], k), []);
      } else {
        assert Step(t, StopFind, m, pc, Resume(m, k), ResumePc(k), []);
      }
    case StopWait(v, i, k) => FreeMoves(s, t);
    case StopHold(v, i, k) => assert Step(t, Kill(true), m, pc, m, StopClean(v, i, k), []);
    case StopClean(v, i, k) => assert Step(t, StopCleanUp, m, pc, CleanUp(m, i), Unlocking(v, i, ToCont(k)), []);
  }

  lemma QueueMoves(t: nat, m: Shared, q: Service, i: nat)
    ensures ClientStep(t, QueueRelease(false), m, Dequeued(q, i), m, Unlocking(q, i, ToLookup), [])
  {
  }

  lemma FreeMoves(s: State, t: nat)
    requires t < |s.threads| && s.threads[t].StopWait? && ThreadOk(s.m, t, s.threads[t]) && !Blocked(s, t)
    ensures CanMove(s, t)
  {
    hide NoEntries;
    var StopWait(v, i, k) := s.threads[t];
    assert s.m.instances[i].holder.Some? ==> WaitsFor(s, t, s.m.instances[i].holder.value);
    assert Step(t, StopLock, s.m, s.threads[t], Acquire(s.m, i, t), StopHold(v, i, k), []);
  }

  /** Behind every blocked goroutine stands one that holds a mutex of the chain, is not blocked itself and
      can move. */
  lemma NeverWedged(run: seq<State>, labels: seq<Label>, k: nat, t: nat)
    requires IsRun(run, labels) && k < |run| && Blocked(run[k], t)
    ensures exists path ::
              && Chain(run[k], path) && path[0] == t
              && CanMove(run[k], path[|path| - 1]) && !Blocked(run[k], path[|path| - 1])
  {
    RunInv(run, labels, k);
    hide Inv;
    var path := ChainEnd(run[k], t);
  }

  lemma ChainEnd(s: State, t: nat) returns (path: seq<nat>)
    requires Inv(s) && Blocked(s, t)
    ensures Chain(s, path) && path[0] == t && CanMove(s, path[|path| - 1]) && !Blocked(s, path[|path| - 1])
    decreases |s.m.instances| - Rank(s.threads[t])
  {
    var u :| WaitsFor(s, t, u);
    hide Inv, Rank, CanMove, WaitsFor;
    if Blocked(s, u) {
      var v :| WaitsFor(s, u, v);
      RankGrows(s, t, u, v);
      var rest := ChainEnd(s, u);
      path := [t] + rest;
      ChainLonger(s, t, rest, path);
    } else {
      HolderMoves(s, u, Target(s.threads[t]).value);
      path := [t, u];
    }
  }

  lemma ChainLonger(s: State, t: nat, rest: seq<nat>, path: seq<nat>)
    requires Chain(s, rest) && WaitsFor(s, t, rest[0]) && path == [t] + rest
    ensures Chain(s, path) && path[|path| - 1] == rest[|rest| - 1]
  {
    hide WaitsFor;
    assert forall j :: 0 < j < |path| - 1 ==> path[j] == rest[j - 1] && path[j + 1] == rest[j];
  }
}
