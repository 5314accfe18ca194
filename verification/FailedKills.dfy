/** A kill that keeps failing: the run goes on with evictions of the same victim for ever. */
module FailedKills {
  import opened Model
  import opened Machine
  import opened Invariant
  import opened Steps
  import opened Reachable
  import opened Deadlock
  import opened WaiterTheorems
  import opened EvictionTheorems

  /** A run and its labels. */
  datatype Trace = Trace(run: seq<State>, labels: seq<Label>)

  function Last(x: Trace): State
    requires |x.run| == |x.labels| + 1
  {
    x.run[|x.labels|]
  }

  /** `t` looks for a victim because `r` is missing, and `v` is one. */
  ghost predicate Stuck(s: State, t: nat, q: Service, b: nat, r: Resource, now: int, v: Service) {
    t < |s.threads| && s.threads[t] == Starting(q, b, Lacking(r)) && Short(s.m, q, b, r, now, v)
  }

  /** `r` is missing, by the amounts or by the cached measurement, and `v` is a victim. */
  ghost predicate Short(m: Shared, q: Service, b: nat, r: Resource, now: int, v: Service) {
    b < |m.instances| && PassLacks(m, q, false, r) && IsVictim(m, q, r, now, v)
  }

  /** `y` goes on from `x` with `n` choices of `t`, all of them `v`, and `f` failed kills. */
  ghost predicate GoesOn(x: Trace, y: Trace, t: nat, v: Service, n: nat, f: nat) {
    && IsRun(y.run, y.labels) && x.run <= y.run && x.labels <= y.labels
    && Picked(y.labels, |x.labels|, |y.labels|, t) == n && Failed(y.labels, |x.labels|, |y.labels|, t) == f
    && forall k :: |x.labels| <= k < |y.labels| && Picks(y.labels[k], t) ==> y.labels[k].a.v == v
  }

  // ---------------------------------------------------------------- longer runs

  lemma LastHolds(x: Trace, y: Trace, t: nat, v: Service, n: nat, f: nat)
    requires GoesOn(x, y, t, v, n, f) && |y.run| == |y.labels| + 1
    ensures Inv(Last(y))
  {
    hide Next, Init, Inv;
    RunInv(y.run, y.labels, |y.labels|);
  }

  lemma {:induction false} CountsStay(labels: seq<Label>, l: Label, i: nat, j: nat, t: nat)
    requires i <= j <= |labels|
    ensures Picked(labels + [l], i, j, t) == Picked(labels, i, j, t)
    ensures Failed(labels + [l], i, j, t) == Failed(labels, i, j, t)
  {
    if i < j {
      CountsStay(labels, l, i, j - 1, t);
      assert (labels + [l])[j - 1] == labels[j - 1];
    }
  }

  lemma Longer(run: seq<State>, labels: seq<Label>, l: Label, s: State)
    requires IsRun(run, labels) && Next(run[|labels|], l, s)
    ensures IsRun(run + [s], labels + [l])
  {
    hide Next, Init;
    var longer, more := run + [s], labels + [l];
    forall k | 0 <= k < |more| ensures Next(longer[k], more[k], longer[k + 1]) {
      if k < |labels| {
        assert Next(run[k], labels[k], run[k + 1]);
      }
    }
  }

  /** One step more. */
  lemma Extend(x: Trace, y: Trace, t: nat, v: Service, n: nat, f: nat, l: Label, s: State) returns (z: Trace)
    requires GoesOn(x, y, t, v, n, f) && |y.run| == |y.labels| + 1 && Next(Last(y), l, s)
    requires Picks(l, t) ==> l.a.v == v
    ensures GoesOn(x, z, t, v, if Picks(l, t) then n + 1 else n, if Fails(l, t) then f + 1 else f)
    ensures |z.run| == |z.labels| + 1 && Last(z) == s
  {
    hide Next, Init;
    z := Trace(y.run + [s], y.labels + [l]);
    Longer(y.run, y.labels, l, s);
    hide IsRun;
    CountsStay(y.labels, l, |x.labels|, |y.labels|, t);
    assert z.labels[|y.labels|] == l && z.labels[..|y.labels|] == y.labels;
  }

  lemma Go(x: Trace, y: Trace, t: nat, v: Service, n: nat, f: nat, a: Action, m: Shared, pc: Pc) returns (z: Trace)
    requires GoesOn(x, y, t, v, n, f) && |y.run| == |y.labels| + 1
    requires t < |Last(y).threads| && (a.EvictPick? ==> a.v == v)
    requires Step(t, a, Last(y).m, Last(y).threads[t], m, pc, [])
    ensures GoesOn(x, z, t, v, if a.EvictPick? then n + 1 else n, if a == Kill(false) then f + 1 else f)
    ensures |z.run| == |z.labels| + 1
    ensures Last(z).m == m && t < |Last(z).threads| && Last(z).threads[t] == pc
  {
    hide Step, GoesOn, Next;
    StepIsNext(Last(y), t, a, m, pc);
    z := Extend(x, y, t, v, n, f, Do(t, a), State(m, Last(y).threads[t := pc]));
  }

  lemma GoEnv(x: Trace, y: Trace, t: nat, v: Service, n: nat, f: nat, e: Event, m: Shared) returns (z: Trace)
    requires GoesOn(x, y, t, v, n, f) && |y.run| == |y.labels| + 1 && Occur(e, Last(y).m, m, [])
    ensures GoesOn(x, z, t, v, n, f) && |z.run| == |z.labels| + 1
    ensures Last(z) == State(m, Last(y).threads)
  {
    var s, s' := Last(y), State(m, Last(y).threads);
    assert s'.threads[|s.threads|..] == [] && s'.threads == s.threads + [];
    hide GoesOn, Occur;
    z := Extend(x, y, t, v, n, f, Env(e), s');
  }

  // ---------------------------------------------------------------- what stays as it is

  /** Up to registrations, signals and the monitors' progress. */
  ghost predicate Alike(m: Shared, m': Shared) {
    m' == m.(first := m'.first, channels := m'.channels, publishing := m'.publishing, checks := m'.checks)
  }

  lemma AlikeShort(m: Shared, m': Shared, q: Service, b: nat, r: Resource, now: int, v: Service)
    requires Alike(m, m') && Short(m, q, b, r, now, v)
    ensures Short(m', q, b, r, now, v)
  {
    AlikeLacks(m, m', q, r);
    assert IsVictim(m', q, r, now, v) by {
      assert forall w :: Eligible(m', q, r, now, w) == Eligible(m, q, r, now, w);
      hide Eligible;
    }
    hide PassLacks, IsVictim;
  }

  lemma AlikeLacks(m: Shared, m': Shared, q: Service, r: Resource)
    requires m'.cfg == m.cfg && m'.inUse == m.inUse && m'.reserved == m.reserved && m'.available == m.available
    requires PassLacks(m, q, false, r)
    ensures PassLacks(m', q, false, r)
  {
    assert forall p :: StaticShort(m', q, p) == StaticShort(m, q, p);
    assert MeasuredShort(m', q, r) == MeasuredShort(m, q, r);
    hide StaticShort, MeasuredShort;
  }

  lemma ForgetShort(m: Shared, q: Service, b: nat, r: Resource, now: int, v: Service)
    requires Short(m, q, b, r, now, v)
    ensures Short(ResetSince(m, b), q, b, r, now, v)
  {
    AlikeLacks(m, ResetSince(m, b), q, r);
    ForgetVictim(m, b, q, r, now, v);
    hide PassLacks, IsVictim;
  }

  lemma ForgetVictim(m: Shared, b: nat, q: Service, r: Resource, now: int, v: Service)
    requires b < |m.instances| && IsVictim(m, q, r, now, v)
    ensures IsVictim(ResetSince(m, b), q, r, now, v)
  {
    var m' := ResetSince(m, b);
    forall w ensures Eligible(m', q, r, now, w) == Eligible(m, q, r, now, w)
      ensures Eligible(m, q, r, now, w) ==> LastUsed(m', w) == LastUsed(m, w)
    {
      if w in m.running && m.running[w] < |m.instances| {
        assert m'.instances[m.running[w]] == m.instances[m.running[w]].(since := m'.instances[m.running[w]].since);
      }
    }
    hide Eligible;
  }

  // ---------------------------------------------------------------- a failed stop

  lemma StopSteps(t: nat, m: Shared, v: Service, i: nat, k: Cont)
    requires i < |m.instances| && m.instances[i].holder.None? && v in m.running && m.running[v] == i
    ensures Step(t, StopFind, m, StopLookup(v, k), m, StopWait(v, i, k), [])
    ensures Step(t, StopLock, m, StopWait(v, i, k), Acquire(m, i, t), StopHold(v, i, k), [])
  {
    hide StartStep, ClientStep, Resume, ResumePc, CleanUp, Free, CanBeStopped, GiveBack, UnlockedPc, Acquire;
  }

  /** The victim's mutex is free and its command is known, so its stop goes ahead up to the kill. */
  lemma VictimStarted(m: Shared, q: Service, r: Resource, now: int, v: Service)
    requires SharedOk(m) && IsVictim(m, q, r, now, v)
    ensures v in m.running && m.running[v] < |m.instances|
    ensures m.instances[m.running[v]].holder.None? && m.instances[m.running[v]].command
  {
    assert Eligible(m, q, r, now, v);
    Registered(m, v);
    InstanceFacts(m, m.running[v]);
  }

  lemma GivesBack(m: Shared, i: nat, t: nat, q: Service, b: nat)
    requires i < |m.instances| && b < |m.instances| && m.instances[i].holder.None?
    ensures var m1 := Acquire(m, i, t);
            |m1.instances| == |m.instances| && m1.instances[i].command == m.instances[i].command
            && Resume(Free(m1, i), AfterEvict(q, b)) == ResetSince(m, b)
  {
    assert Free(Acquire(m, i, t), i).instances == m.instances;
  }

  /** The kill and the way back to a pass; in the end only the history of `b` has changed. */
  lemma KillSteps(t: nat, m: Shared, q: Service, b: nat, v: Service, i: nat, k: Cont, m1: Shared)
    requires b < |m.instances| && i < |m.instances| && k == AfterEvict(q, b) && m1 == Acquire(m, i, t)
    requires m.instances[i].holder.None? && m.instances[i].command
    ensures Step(t, Kill(false), m1, StopHold(v, i, k), m1, Unlocking(v, i, ToCont(k)), [])
    ensures Step(t, Unlock, m1, Unlocking(v, i, ToCont(k)), ResetSince(m, b), Starting(q, b, Pass(true)), [])
  {
    GivesBack(m, i, t, q, b);
    hide Acquire, StartStep, ClientStep, Resume, CleanUp, Free, CanBeStopped, GiveBack, ResetSince;
  }

  /** From the choice of a victim, through a kill that fails, to the next pass. */
  lemma KillFails(x: Trace, y: Trace, t: nat, q: Service, b: nat, r: Resource, now: int, v: Service, n: nat)
    returns (z: Trace)
    requires GoesOn(x, y, t, v, n, n) && |y.run| == |y.labels| + 1 && Stuck(Last(y), t, q, b, r, now, v)
    ensures GoesOn(x, z, t, v, n + 1, n + 1) && |z.run| == |z.labels| + 1
    ensures t < |Last(z).threads| && Last(z).threads[t] == Starting(q, b, Pass(true))
    ensures Short(Last(z).m, q, b, r, now, v)
  {
    hide GoesOn, Inv, Step, PassLacks, IsVictim, ResetSince, Acquire;
    var m, k := Last(y).m, AfterEvict(q, b);
    assert Short(m, q, b, r, now, v) && b < |m.instances| && IsVictim(m, q, r, now, v);
    StartIsStep(t, EvictPick(v, now), m, q, b, Lacking(r), m, StopLookup(v, k), []);
    hide *;
    LastHolds(x, y, t, v, n, n);
    ThreadFacts(Last(y), t);
    VictimStarted(m, q, r, now, v);
    var i := m.running[v];
    var m1 := Acquire(m, i, t);
    KillSteps(t, m, q, b, v, i, k, m1);
    StopSteps(t, m, v, i, k);
    z := Go(x, y, t, v, n, n, EvictPick(v, now), m, StopLookup(v, k));
    z := Go(x, z, t, v, n + 1, n, StopFind, m, StopWait(v, i, k));
    z := Go(x, z, t, v, n + 1, n, StopLock, m1, StopHold(v, i, k));
    z := Go(x, z, t, v, n + 1, n, Kill(false), m1, Unlocking(v, i, ToCont(k)));
    z := Go(x, z, t, v, n + 1, n + 1, Unlock, ResetSince(m, b), Starting(q, b, Pass(true)));
    ForgetShort(m, q, b, r, now, v);
  }

  // ---------------------------------------------------------------- the next pass

  /** A pass that finds `r` missing. */
  lemma FindsMissing(x: Trace, y: Trace, t: nat, q: Service, b: nat, recheck: bool, r: Resource, now: int, v: Service,
                     n: nat)
    returns (z: Trace)
    requires GoesOn(x, y, t, v, n, n) && |y.run| == |y.labels| + 1 && t < |Last(y).threads|
    requires Last(y).threads[t] == Starting(q, b, Pass(recheck)) && Short(Last(y).m, q, b, r, now, v)
    requires PassLacks(Last(y).m, q, recheck, r) && b < |Last(y).m.instances|
    ensures GoesOn(x, z, t, v, n, n) && |z.run| == |z.labels| + 1 && Stuck(Last(z), t, q, b, r, now, v)
  {
    var m := Last(y).m;
    var m' := m.(first := Unregister(m.first, m.first.Keys, q));
    hide Unregister, Short, GoesOn, PassLacks, Step;
    LackMoves(m, q, b, recheck, r);
    StartIsStep(t, PassLack(r), m, q, b, Pass(recheck), m', Starting(q, b, Lacking(r)), []);
    hide StartStep;
    z := Go(x, y, t, v, n, n, PassLack(r), m', Starting(q, b, Lacking(r)));
    AlikeShort(m, m', q, b, r, now, v);
  }

  lemma PendingFacts(s: State, t: nat, q: Service, b: nat, chans: map<Resource, nat>, todo: set<Resource>)
    requires Inv(s) && t < |s.threads| && s.threads[t] == Starting(q, b, Pending(chans, todo))
    ensures b < |s.m.instances| && SharedOk(s.m)
    ensures forall r :: r in todo ==>
              r in chans && r in s.m.cfg.check && r in s.m.available && Entry(s.m.first, r, q) == Some(chans[r])
  {
    ThreadFacts(s, t);
    hide Inv;
    assert LedgerKeys(s.m) && s.m.cfg.Valid();
    hide SharedOk, NoChange, InReserve;
  }

  /** A monitor measures the same and signals. */
  lemma SameMeasured(m: Shared, r: Resource)
    requires r in m.cfg.check && r in m.available && r !in m.publishing
    ensures var m' := Measured(m, r, Get(m.available, r));
            Alike(m, m') && m'.first == m.first && r in m'.publishing
            && Occur(Event.Measure(r, Get(m.available, r)), m, m', [])
  {
    assert m.available[r := Get(m.available, r)] == m.available;
    hide Published;
  }

  lemma Signalling(m: Shared, r: Resource)
    requires r in m.cfg.check && r in m.publishing
    ensures Alike(m, Published(m, r)) && |Published(m, r).channels| == |m.channels|
    ensures Occur(Publish(r), m, Published(m, r), [])
  {
    hide Fill, Listeners;
  }

  /** The monitor of `r` runs, measures the same, and signals the goroutine. */
  lemma Answers(x: Trace, y: Trace, t: nat, q: Service, b: nat, chans: map<Resource, nat>, todo: set<Resource>,
                r: Resource, v: Service, n: nat)
    returns (z: Trace)
    requires GoesOn(x, y, t, v, n, n) && |y.run| == |y.labels| + 1 && t < |Last(y).threads|
    requires Last(y).threads[t] == Starting(q, b, Pending(chans, todo)) && r in todo
    ensures GoesOn(x, z, t, v, n, n) && |z.run| == |z.labels| + 1 && Last(z).threads == Last(y).threads
    ensures Alike(Last(y).m, Last(z).m)
    ensures r in chans && chans[r] < |Last(z).m.channels| && Last(z).m.channels[chans[r]].value.Some?
  {
    hide GoesOn, Inv, SharedOk, Entry, Occur, Published, Measured;
    z := y;
    var m := Last(y).m;
    LastHolds(x, y, t, v, n, n);
    PendingFacts(Last(y), t, q, b, chans, todo);
    if r !in m.publishing {
      SameMeasured(m, r);
      z := GoEnv(x, y, t, v, n, n, Event.Measure(r, Get(m.available, r)), Measured(m, r, Get(m.available, r)));
    }
    var m1 := Last(z).m;
    LastHolds(x, z, t, v, n, n);
    PendingFacts(Last(z), t, q, b, chans, todo);
    PublishFillsFirst(m1, r, q);
    Signalling(m1, r);
    z := GoEnv(x, z, t, v, n, n, Publish(r), Published(m1, r));
  }

  /** Every monitor that was asked measures what it measured before. */
  lemma {:induction false} AllAnswer(x: Trace, y: Trace, t: nat, q: Service, b: nat, chans: map<Resource, nat>,
                                     todo: set<Resource>, v: Service, n: nat)
    returns (z: Trace)
    requires GoesOn(x, y, t, v, n, n) && |y.run| == |y.labels| + 1 && t < |Last(y).threads|
    requires Last(y).threads[t] == Starting(q, b, Pending(chans, todo)) && b < |Last(y).m.instances|
    ensures GoesOn(x, z, t, v, n, n) && |z.run| == |z.labels| + 1 && t < |Last(z).threads|
    ensures Last(z).threads[t] == Starting(q, b, Pending(chans, {})) && Alike(Last(y).m, Last(z).m)
    decreases |todo|
  {
    hide GoesOn, Step;
    z := y;
    if todo != {} {
      var r :| r in todo;
      z := Answers(x, y, t, q, b, chans, todo, r, v, n);
      var m := Last(z).m;
      StartIsStep(t, PendingReceive(r), m, q, b, Pending(chans, todo), Take(m, chans[r]),
                  Starting(q, b, Pending(chans, todo - {r})), []);
      hide StartStep;
      z := Go(x, z, t, v, n, n, PendingReceive(r), Take(m, chans[r]), Starting(q, b, Pending(chans, todo - {r})));
      z := AllAnswer(x, z, t, q, b, chans, todo - {r}, v, n);
    }
  }

  /** A pass that asks all monitors. */
  lemma Asks(x: Trace, y: Trace, t: nat, q: Service, b: nat, v: Service, n: nat)
    returns (z: Trace, chans: map<Resource, nat>)
    requires GoesOn(x, y, t, v, n, n) && |y.run| == |y.labels| + 1 && t < |Last(y).threads|
    requires Last(y).threads[t] == Starting(q, b, Pass(true)) && b < |Last(y).m.instances|
    requires PassAsks(Last(y).m, q, true)
    ensures GoesOn(x, z, t, v, n, n) && |z.run| == |z.labels| + 1 && t < |Last(z).threads|
    ensures Last(z).threads[t] == Starting(q, b, Pending(chans, chans.Keys)) && Alike(Last(y).m, Last(z).m)
  {
    var m := Last(y).m;
    chans := Numbering(m.cfg.Measured(q), |m.channels|);
    assert |chans| == |chans.Keys|;
    var m' := Asking(m, q, chans);
    assert Alike(m, m');
    var pc' := Starting(q, b, Pending(chans, chans.Keys));
    assert PassStep(PassAsk(chans), m, q, b, true, m', pc') by { hide Asked, FreshChannels, PassAsks; }
    StartIsStep(t, PassAsk(chans), m, q, b, Pass(true), m', pc', []) by { hide PassStep; }
    hide *;
    z := Go(x, y, t, v, n, n, PassAsk(chans), m', pc');
  }

  /** The pass after the measurements. */
  lemma Remeasures(x: Trace, y: Trace, t: nat, q: Service, b: nat, v: Service, n: nat) returns (z: Trace)
    requires GoesOn(x, y, t, v, n, n) && |y.run| == |y.labels| + 1 && t < |Last(y).threads|
    requires Last(y).threads[t] == Starting(q, b, Pass(true)) && b < |Last(y).m.instances|
    requires PassAsks(Last(y).m, q, true)
    ensures GoesOn(x, z, t, v, n, n) && |z.run| == |z.labels| + 1 && t < |Last(z).threads|
    ensures Last(z).threads[t] == Starting(q, b, Pass(false)) && Alike(Last(y).m, Last(z).m)
  {
    hide GoesOn, Step, Unregister, PassAsks;
    var chans;
    z, chans := Asks(x, y, t, q, b, v, n);
    z := AllAnswer(x, z, t, q, b, chans, chans.Keys, v, n);
    var m := Last(z).m;
    var m' := m.(first := Unregister(m.first, chans.Keys, q));
    StartIsStep(t, PendingFinish, m, q, b, Pending(chans, {}), m, Starting(q, b, PendingDone(chans, true)), []);
    StartIsStep(t, PendingDrop, m, q, b, PendingDone(chans, true), m', Starting(q, b, Pass(false)), []);
    hide StartStep;
    z := Go(x, z, t, v, n, n, PendingFinish, m, Starting(q, b, PendingDone(chans, true)));
    z := Go(x, z, t, v, n, n, PendingDrop, m', Starting(q, b, Pass(false)));
  }

  lemma ShortCases(m: Shared, q: Service, b: nat, r: Resource, now: int, v: Service)
    requires Short(m, q, b, r, now, v)
    ensures b < |m.instances| && PassLacks(m, q, false, r) && (PassLacks(m, q, true, r) || PassAsks(m, q, true))
  {
    hide IsVictim;
    assert !StaticShort(m, q, r) ==> MeasuredShort(m, q, r);
  }

  // ---------------------------------------------------------------- for ever

  /** A stop whose kill fails leads back to the same shortage and the same victim, for a measured resource
      when the monitors measure what they measured before. */
  lemma FailedKillRepeats(x: Trace, y: Trace, t: nat, q: Service, b: nat, r: Resource, now: int, v: Service, n: nat)
    returns (z: Trace)
    requires GoesOn(x, y, t, v, n, n) && |y.run| == |y.labels| + 1 && Stuck(Last(y), t, q, b, r, now, v)
    ensures GoesOn(x, z, t, v, n + 1, n + 1) && |z.run| == |z.labels| + 1 && Stuck(Last(z), t, q, b, r, now, v)
  {
    hide *;
    z := KillFails(x, y, t, q, b, r, now, v, n);
    var m := Last(z).m;
    ShortCases(m, q, b, r, now, v);
    if PassLacks(m, q, true, r) {
      z := FindsMissing(x, z, t, q, b, true, r, now, v, n + 1);
    } else {
      z := Remeasures(x, z, t, q, b, v, n + 1);
      AlikeShort(m, Last(z).m, q, b, r, now, v);
      ShortCases(Last(z).m, q, b, r, now, v);
      z := FindsMissing(x, z, t, q, b, false, r, now, v, n + 1);
    }
  }

  /** When the kill keeps failing, there is no bound: the run goes on with any number of evictions of
      the same victim. */
  lemma {:induction false} FailedKillsUnbounded(x: Trace, t: nat, q: Service, b: nat, r: Resource, now: int, v: Service,
                                                n: nat)
    returns (z: Trace)
    requires IsRun(x.run, x.labels) && Stuck(Last(x), t, q, b, r, now, v)
    ensures GoesOn(x, z, t, v, n, n) && |z.run| == |z.labels| + 1 && Stuck(Last(z), t, q, b, r, now, v)
    decreases n
  {
    if n == 0 {
      z := x;
    } else {
      hide *;
      z := FailedKillsUnbounded(x, t, q, b, r, now, v, n - 1);
      z := FailedKillRepeats(x, z, t, q, b, r, now, v, n - 1);
    }
  }
}
