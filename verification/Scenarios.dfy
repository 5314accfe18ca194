/** Runs from the tables of `main` that show what the program does not promise: two services that fit alone
    but not together lead to evictions without end, when the kill keeps failing, and to a lost release. */
module Scenarios {
  import opened Model
  import opened Machine
  import opened Reachable
  import opened Deadlock
  import opened WaiterTheorems
  import opened WakeupTheorems
  import opened EvictionTheorems
  import opened FailedKills

  /** Each of the two services gets all it needs while the other is not running, but `r` does not suffice for
      both. No CheckCommand measures what they need. */
  ghost predicate Compete(cfg: Config, a: Service, b: Service, r: Resource) {
    && cfg.Valid() && a != b && Fits(cfg, a) && Fits(cfg, b)
    && cfg.Need(a, r) + cfg.Need(b, r) > Get(cfg.amount, r)
  }

  ghost predicate Fits(cfg: Config, s: Service) {
    && s in cfg.requirements && cfg.Measured(s) == {}
    && forall p :: p in cfg.Requirement(s) ==> cfg.Need(s, p) <= Get(cfg.amount, p)
  }

  lemma CompeteExample()
    ensures Compete(Config(map["VRAM" := 1], {}, map["A" := map["VRAM" := 1], "B" := map["VRAM" := 1]], {}, {}),
                    "A", "B", "VRAM")
  {
    assert "A"[0] != "B"[0];
  }

  /** The run of `x` starts from the tables of `main` and ends with the tables `m` and `n` goroutines. */
  ghost predicate Reaches(x: Trace, cfg: Config, m: Shared, n: nat) {
    && |x.run| == |x.labels| + 1 && IsRun(x.run, x.labels) && x.run[0] == State(Tables(cfg), [])
    && Last(x).m == m && |Last(x).threads| == n
  }

  /** And `t` is at `pc`. */
  ghost predicate Stands(x: Trace, cfg: Config, m: Shared, n: nat, t: nat, pc: Pc) {
    Reaches(x, cfg, m, n) && t < n && Last(x).threads[t] == pc
  }

  /** The tables that `main` builds. */
  function Tables(cfg: Config): Shared {
    var zero := map r | r in cfg.amount :: 0;
    Shared(cfg, zero, zero, zero, map[], [], map s | s in cfg.requirements :: Stats(0, 0),
           map r | r in cfg.amount :: map[], map r | r in cfg.check :: map[], [], map[], zero)
  }

  // ---------------------------------------------------------------- one more step

  lemma Append(x: Trace, l: Label, s: State) returns (z: Trace)
    requires |x.run| == |x.labels| + 1 && IsRun(x.run, x.labels) && Next(Last(x), l, s)
    ensures |z.run| == |z.labels| + 1 && IsRun(z.run, z.labels) && z.run[0] == x.run[0] && Last(z) == s
  {
    hide Next, Init;
    Longer(x.run, x.labels, l, s);
    z := Trace(x.run + [s], x.labels + [l]);
    hide IsRun;
  }

  lemma Acts(x: Trace, cfg: Config, m: Shared, n: nat, t: nat, pc: Pc, a: Action, m': Shared, pc': Pc)
    returns (z: Trace)
    requires Stands(x, cfg, m, n, t, pc) && Step(t, a, m, pc, m', pc', [])
    ensures Stands(z, cfg, m', n, t, pc') && Last(z).threads == Last(x).threads[t := pc']
  {
    hide Next, Init, Step, Tables;
    StepIsNext(Last(x), t, a, m', pc');
    z := Append(x, Do(t, a), State(m', Last(x).threads[t := pc']));
  }

  /** A step that starts another goroutine. */
  lemma Forks(x: Trace, cfg: Config, m: Shared, n: nat, t: nat, pc: Pc, a: Action, m': Shared, pc': Pc, born: Pc)
    returns (z: Trace)
    requires Stands(x, cfg, m, n, t, pc) && Step(t, a, m, pc, m', pc', [born])
    ensures Stands(z, cfg, m', n + 1, t, pc') && |Last(z).threads| == n + 1 && Last(z).threads[n] == born
  {
    hide Init, Step, Tables;
    var threads := Last(x).threads;
    var threads' := threads[t := pc'] + [born];
    assert threads'[n..] == [born] && threads' == threads[t := threads'[t]] + [born];
    assert Next(Last(x), Do(t, a), State(m', threads'));
    hide Next;
    z := Append(x, Do(t, a), State(m', threads'));
  }

  /** The environment starts a goroutine. */
  lemma Happens(x: Trace, cfg: Config, m: Shared, n: nat, e: Event, born: Pc) returns (z: Trace)
    requires Reaches(x, cfg, m, n) && Occur(e, m, m, [born])
    ensures Stands(z, cfg, m, n + 1, n, born)
    ensures Last(z).threads == Last(x).threads + [born]
  {
    hide Init, Occur, Tables;
    var threads' := Last(x).threads + [born];
    assert threads'[n..] == [born];
    assert Next(Last(x), Env(e), State(m, threads'));
    hide Next;
    z := Append(x, Env(e), State(m, threads'));
  }

  // ---------------------------------------------------------------- a client of a service that is not running

  function Arrived(m: Shared, s: Service, t: nat): Shared {
    Insert(Count(m, s, 0, 1), s, t, 0)
  }

  lemma ArriveSteps(t: nat, m: Shared, s: Service, m1: Shared)
    requires s in m.cfg.requirements && s !in m.running && 0 <= StatsOf(m, s).waiting && m1 == Count(m, s, 0, 1)
    ensures Occur(NewClient(s), m, m, [Arriving(s)]) && Step(t, Bump, m, Arriving(s), m1, LookingUp(s), [])
    ensures Step(t, Lookup, m1, LookingUp(s), m1, Inserting(s), [])
    ensures Step(t, Create(0), m1, Inserting(s), Arrived(m, s, t), Starting(s, |m.instances|, Pass(true)), [])
  {
    hide StartStep, Insert, CleanUp, Resume, CanBeStopped, TouchIf, Acquire, Broadcast;
  }

  lemma Arrives(x: Trace, cfg: Config, m: Shared, t: nat, s: Service) returns (z: Trace)
    requires Reaches(x, cfg, m, t) && s in m.cfg.requirements && s !in m.running && 0 <= StatsOf(m, s).waiting
    ensures Stands(z, cfg, Arrived(m, s, t), t + 1, t, Starting(s, |m.instances|, Pass(true)))
  {
    hide *;
    var m1 := Count(m, s, 0, 1);
    ArriveSteps(t, m, s, m1);
    z := Happens(x, cfg, m, t, NewClient(s), Arriving(s));
    z := Acts(z, cfg, m, t + 1, t, Arriving(s), Bump, m1, LookingUp(s));
    z := Acts(z, cfg, m1, t + 1, t, LookingUp(s), Lookup, m1, Inserting(s));
    z := Acts(z, cfg, m1, t + 1, t, Inserting(s), Create(0), Arrived(m, s, t),
              Starting(s, |m.instances|, Pass(true)));
  }

  // ---------------------------------------------------------------- a start that ends well

  function Started(m: Shared): Shared
    requires |m.instances| == 1
  {
    Free(MakeReady(SetCommand(Mark(Commit(m, 0), 0), 0), 0), 0)
  }

  lemma LaunchSteps(t: nat, s: Service, m: Shared, m1: Shared, m2: Shared)
    requires |m.instances| == |m1.instances| == 1 && PassCommits(m, s, true)
    requires m1 == Commit(m, 0) && m2 == Mark(m1, 0)
    ensures StartStep(t, PassCommit, m, s, 0, Pass(true), m1, Starting(s, 0, Reserved), [])
    ensures StartStep(t, Confirm, m1, s, 0, Reserved, m2, Starting(s, 0, Spawning), [])
  {
    hide PassCommits, Commit, Mark, SetCommand, PendingStep, CleanUp, Enlist, Take, Unregister, GiveBack, MakeReady,
         Eligible, IsVictim;
  }

  lemma ServeSteps(t: nat, s: Service, m: Shared, m1: Shared)
    requires |m.instances| == |m1.instances| == 1 && m1 == MakeReady(m, 0)
    ensures StartStep(t, Ready, m, s, 0, MakingReady, m1, Unlocking(s, 0, ToConnected), [])
    ensures Step(t, Unlock, m1, Unlocking(s, 0, ToConnected), Free(m1, 0), Connected(s), [])
  {
    hide PassStep, PendingStep, CleanUp, Enlist, Take, Unregister, GiveBack, MakeReady, Free, Mark, SetCommand,
         Eligible, IsVictim, ClientStep, Resume, ResumePc;
  }

  /** The tables when a command runs and its port answers. */
  function Launched(m: Shared): Shared
    requires |m.instances| == 1
  {
    SetCommand(Mark(Commit(m, 0), 0), 0)
  }

  /** A step of the start of the first instance. */
  lemma Goes(x: Trace, cfg: Config, m: Shared, n: nat, s: Service, phase: Phase, a: Action, m': Shared, pc': Pc)
    returns (z: Trace)
    requires Stands(x, cfg, m, n, 0, Starting(s, 0, phase)) && |m.instances| > 0
    requires StartStep(0, a, m, s, 0, phase, m', pc', [])
    ensures Stands(z, cfg, m', n, 0, pc') && |Last(x).threads| > 0
    ensures Last(z).threads == Last(x).threads[0 := pc']
  {
    assert |Last(x).threads| > 0;
    hide Stands, StartStep;
    StartIsStep(0, a, m, s, 0, phase, m', pc', []);
    z := Acts(x, cfg, m, n, 0, Starting(s, 0, phase), a, m', pc');
  }

  lemma Launches(x: Trace, cfg: Config, m: Shared, s: Service) returns (z: Trace)
    requires Stands(x, cfg, m, 1, 0, Starting(s, 0, Pass(true))) && |m.instances| == 1 && PassCommits(m, s, true)
    ensures Stands(z, cfg, Launched(m), 2, 0, Starting(s, 0, MakingReady))
    ensures |Last(z).threads| == 2 && Last(z).threads[1] == Reaping(s, 0)
  {
    hide Stands, PassCommits;
    var m1 := Commit(m, 0);
    var m2 := Mark(m1, 0);
    assert Launched(m) == SetCommand(m2, 0);
    hide *;
    LaunchSteps(0, s, m, m1, m2);
    z := Goes(x, cfg, m, 1, s, Pass(true), PassCommit, m1, Starting(s, 0, Reserved));
    z := Goes(z, cfg, m1, 1, s, Reserved, Confirm, m2, Starting(s, 0, Spawning));
    z := Spawns(z, cfg, m2, s);
  }

  lemma Spawns(x: Trace, cfg: Config, m: Shared, s: Service) returns (z: Trace)
    requires Stands(x, cfg, m, 1, 0, Starting(s, 0, Spawning)) && |m.instances| == 1
    ensures Stands(z, cfg, SetCommand(m, 0), 2, 0, Starting(s, 0, MakingReady))
    ensures |Last(z).threads| == 2 && Last(z).threads[1] == Reaping(s, 0)
  {
    var m1 := SetCommand(m, 0);
    assert |m1.instances| == 1;
    hide *;
    StartIsStep(0, SpawnRecord, m, s, 0, Spawned, m1, Starting(s, 0, Probing), [Reaping(s, 0)]);
    z := Goes(x, cfg, m, 1, s, Spawning, Spawn(true), m, Starting(s, 0, Spawned));
    z := Forks(z, cfg, m, 1, 0, Starting(s, 0, Spawned), SpawnRecord, m1, Starting(s, 0, Probing), Reaping(s, 0));
    z := Answers(z, cfg, m1, s);
  }

  lemma Answers(x: Trace, cfg: Config, m: Shared, s: Service) returns (z: Trace)
    requires Stands(x, cfg, m, 2, 0, Starting(s, 0, Probing)) && |m.instances| == 1
    requires |Last(x).threads| == 2 && Last(x).threads[1] == Reaping(s, 0)
    ensures Stands(z, cfg, m, 2, 0, Starting(s, 0, MakingReady))
    ensures |Last(z).threads| == 2 && Last(z).threads[1] == Reaping(s, 0)
  {
    assert StartStep(0, Probe(true), m, s, 0, Probing, m, Starting(s, 0, Connecting), []);
    assert StartStep(0, Connect(true), m, s, 0, Connecting, m, Starting(s, 0, MakingReady), []);
    hide *;
    z := Goes(x, cfg, m, 2, s, Probing, Probe(true), m, Starting(s, 0, Connecting));
    z := Goes(z, cfg, m, 2, s, Connecting, Connect(true), m, Starting(s, 0, MakingReady));
  }

  lemma Starts(x: Trace, cfg: Config, m: Shared, s: Service) returns (z: Trace)
    requires Stands(x, cfg, m, 1, 0, Starting(s, 0, Pass(true))) && |m.instances| == 1 && PassCommits(m, s, true)
    ensures Stands(z, cfg, Started(m), 2, 0, Connected(s))
  {
    var m3 := Launched(m);
    assert |m3.instances| == 1 && Started(m) == Free(MakeReady(m3, 0), 0);
    hide *;
    z := Launches(x, cfg, m, s);
    z := Readies(z, cfg, m3, s);
  }

  lemma Readies(x: Trace, cfg: Config, m: Shared, s: Service) returns (z: Trace)
    requires Stands(x, cfg, m, 2, 0, Starting(s, 0, MakingReady)) && |m.instances| == 1
    ensures |MakeReady(m, 0).instances| == 1 && Stands(z, cfg, Free(MakeReady(m, 0), 0), 2, 0, Connected(s))
  {
    var m1 := MakeReady(m, 0);
    assert |m1.instances| == 1;
    hide *;
    ServeSteps(0, s, m, m1);
    z := Goes(x, cfg, m, 2, s, MakingReady, Ready, m1, Unlocking(s, 0, ToConnected));
    z := Acts(z, cfg, m1, 2, 0, Unlocking(s, 0, ToConnected), Unlock, Free(m1, 0), Connected(s));
  }

  // ---------------------------------------------------------------- the first service

  /** `a` runs and holds what it needs; `clients` connections to it wait. */
  ghost predicate FirstRuns(m: Shared, cfg: Config, a: Service, clients: nat) {
    && m.cfg == cfg && m.channels == [] && |m.instances| == 1 && m.running == map[a := 0]
    && AtRest(m.instances[0], a) && StatsOf(m, a) == Stats(0, clients)
    && (forall q :: q != a ==> StatsOf(m, q) == Stats(0, 0))
    && forall p :: Get(m.inUse, p) == cfg.Need(a, p)
  }

  predicate AtRest(x: Instance, a: Service) {
    x.svc == a && x.holder.None? && x.lastUsed == 0 && x.command && x.timer && x.ready && x.marked && !x.released
  }

  /** And `b` is about to reserve. */
  ghost predicate BothIn(m: Shared, cfg: Config, a: Service, b: Service) {
    && m.cfg == cfg && m.channels == [] && |m.instances| == 2 && m.running == map[a := 0, b := 1]
    && AtRest(m.instances[0], a) && StatsOf(m, a) == Stats(0, 0) && forall p :: Get(m.inUse, p) == cfg.Need(a, p)
  }

  lemma FirstFits(cfg: Config, a: Service)
    requires cfg.Valid() && Fits(cfg, a)
    ensures var m := Arrived(Tables(cfg), a, 0);
            && m.cfg == cfg && m.channels == [] && m.running == map[a := 0]
            && m.instances == [Newborn(Tables(cfg), a, 0, 0)] && StatsOf(m, a) == Stats(0, 1)
            && (forall q :: q != a ==> StatsOf(m, q) == Stats(0, 0)) && (forall p :: Get(m.inUse, p) == 0)
            && PassCommits(m, a, true)
  {
    var m := Arrived(Tables(cfg), a, 0);
    forall p ensures !StaticShort(m, a, p) {
    }
  }

  lemma StartedShape(m: Shared)
    requires |m.instances| == 1
    ensures var x, m' := m.instances[0], Started(m);
            && m'.cfg == m.cfg && m'.channels == m.channels && m'.running == m.running && m'.stats == m.stats
            && m'.inUse == Plus(m.inUse, m.cfg.Requirement(x.svc))
            && m'.instances == [x.(committed := true, waiting := false, marked := true, command := true, ready := true,
                                   timer := true, holder := None)]
  {
    hide Plus, Minus, Unregister;
  }

  lemma FirstStarted(m: Shared, cfg: Config, a: Service)
    requires |m.instances| == 1 && m.instances[0] == Newborn(Tables(cfg), a, 0, 0)
    requires m.cfg == cfg && m.channels == [] && m.running == map[a := 0] && forall p :: Get(m.inUse, p) == 0
    requires StatsOf(m, a) == Stats(0, 1) && forall q :: q != a ==> StatsOf(m, q) == Stats(0, 0)
    ensures FirstRuns(Started(m), cfg, a, 1)
  {
    StartedShape(m);
    hide Started, Tables;
    assert forall p :: Get(Plus(m.inUse, cfg.Requirement(a)), p) == cfg.Need(a, p);
    assert forall q :: StatsOf(Started(m), q) == StatsOf(m, q);
    hide Plus, StatsOf;
  }

  /** The counters while a client is forwarded, and when it has left. */
  function Entered(m: Shared, s: Service): Shared {
    Count(m, s, 1, -1)
  }

  function Departed(m: Shared, s: Service): Shared {
    Count(Entered(m, s), s, -1, 0)
  }

  lemma LeaveSteps(t: nat, m: Shared, a: Service, m1: Shared)
    requires StatsOf(m, a) == Stats(0, 1) && m1 == Entered(m, a)
    requires TouchIf(m, a, 0, 0) == m && TouchIf(m1, a, 0, 0) == m1 && Finds(m, a, 0) && Finds(m1, a, 0)
    ensures Step(t, Used(0, 0), m, Connected(a), m, Entering(a), [])
    ensures Step(t, Bump, m, Entering(a), m1, Proxying(a), [])
    ensures Step(t, Forwarded(0, 0), m1, Proxying(a), m1, Departing(a), [])
  {
    hide StartStep, TouchIf, Finds, Broadcast, Insert, CleanUp, Resume, ResumePc, CanBeStopped, Acquire, Free, GiveBack;
  }

  lemma DepartSteps(t: nat, m: Shared, a: Service, m1: Shared, m2: Shared)
    requires StatsOf(m, a) == Stats(0, 1) && m1 == Entered(m, a) && m2 == Departed(m, a)
    requires Broadcast(m2, m2.cfg.Requirement(a).Keys, true) == m2
    ensures Step(t, Bump, m1, Departing(a), m2, Notifying(a, OnDone), [])
    ensures Step(t, Notify, m2, Notifying(a, OnDone), m2, Done, [])
  {
    hide StartStep, TouchIf, Broadcast, Insert, CleanUp, Resume, ResumePc, CanBeStopped, Acquire, Free, GiveBack;
  }

  /** A client of `a` comes first, `a` starts, and the client is served and leaves. */
  lemma FirstComes(cfg: Config, a: Service) returns (x: Trace, m: Shared)
    requires cfg.Valid() && Fits(cfg, a)
    ensures FirstRuns(m, cfg, a, 0) && Stands(x, cfg, m, 2, 0, Done)
  {
    x := Trace([State(Tables(cfg), [])], []);
    var m0 := Tables(cfg);
    assert Reaches(x, cfg, m0, 0);
    assert a in cfg.requirements && a !in m0.running && StatsOf(m0, a) == Stats(0, 0) && m0.instances == [];
    assert m0.cfg == cfg;
    hide *;
    FirstFits(cfg, a);
    x := Arrives(x, cfg, m0, 0, a);
    x := Starts(x, cfg, Arrived(m0, a, 0), a);
    FirstStarted(Arrived(m0, a, 0), cfg, a);
    x, m := Leaves(x, cfg, Started(Arrived(m0, a, 0)), a);
  }

  lemma Leaves(x: Trace, cfg: Config, m: Shared, a: Service) returns (z: Trace, m2: Shared)
    requires Stands(x, cfg, m, 2, 0, Connected(a)) && FirstRuns(m, cfg, a, 1)
    ensures Stands(z, cfg, m2, 2, 0, Done) && FirstRuns(m2, cfg, a, 0)
  {
    assert FirstRuns(Departed(m, a), cfg, a, 0) by {
      forall q | q != a ensures StatsOf(Departed(m, a), q) == Stats(0, 0) {
        assert StatsOf(m, q) == Stats(0, 0);
      }
    }
    hide *;
    var m1;
    m1, m2 := Entered(m, a), Departed(m, a);
    LeaveSteps(0, m, a, m1);
    DepartSteps(0, m, a, m1, m2);
    z := Acts(x, cfg, m, 2, 0, Connected(a), Used(0, 0), m, Entering(a));
    z := Acts(z, cfg, m, 2, 0, Entering(a), Bump, m1, Proxying(a));
    z := Acts(z, cfg, m1, 2, 0, Proxying(a), Forwarded(0, 0), m1, Departing(a));
    z := Acts(z, cfg, m1, 2, 0, Departing(a), Bump, m2, Notifying(a, OnDone));
    z := Acts(z, cfg, m2, 2, 0, Notifying(a, OnDone), Notify, m2, Done);
  }

  // ---------------------------------------------------------------- the second service

  lemma ShortOfIt(m: Shared, cfg: Config, a: Service, b: Service, r: Resource)
    requires BothIn(m, cfg, a, b) && Compete(cfg, a, b, r)
    ensures PassLacks(m, b, true, r) && Short(m, b, 1, r, 1, a)
  {
    assert cfg.Need(a, r) <= Get(cfg.amount, r) && cfg.Need(b, r) <= Get(cfg.amount, r);
    assert r in cfg.Requirement(b) && r !in cfg.Measured(b);
    assert StaticShort(m, b, r);
    assert Eligible(m, b, r, 1, a);
    assert forall w :: Eligible(m, b, r, 1, w) ==> w == a;
  }

  /** Then a client of `b` comes, the reservation finds `r` missing, and `a` is the victim. */
  lemma SecondLacks(cfg: Config, a: Service, b: Service, r: Resource) returns (x: Trace, m: Shared)
    requires Compete(cfg, a, b, r)
    ensures BothIn(m, cfg, a, b) && Short(m, b, 1, r, 1, a)
    ensures Stands(x, cfg, m, 3, 2, Starting(b, 1, Lacking(r)))
  {
    hide IsRun, Short;
    var m1;
    x, m1 := FirstComes(cfg, a);
    assert b in m1.cfg.requirements && b !in m1.running && StatsOf(m1, b) == Stats(0, 0) && |m1.instances| == 1;
    var m2 := Arrived(m1, b, 2);
    m := m2.(first := Unregister(m2.first, m2.first.Keys, b));
    assert |m2.instances| == 2;
    ShortOfIt(m2, cfg, a, b, r);
    ShortOfIt(m, cfg, a, b, r);
    assert Reaches(x, cfg, m1, 2);
    hide *;
    x := Arrives(x, cfg, m1, 2, b);
    LackMoves(m2, b, 1, true, r);
    StartIsStep(2, PassLack(r), m2, b, 1, Pass(true), m, Starting(b, 1, Lacking(r)), []);
    x := Acts(x, cfg, m2, 3, 2, Starting(b, 1, Pass(true)), PassLack(r), m, Starting(b, 1, Lacking(r)));
  }

  // ---------------------------------------------------------------- evictions without end

  /** Two services that compete for a resource: there are runs in which one is chosen as the other's victim
      any number of times in a row, because the kill fails each time. */
  lemma EvictedForEver(cfg: Config, a: Service, b: Service, r: Resource, n: nat) returns (x: Trace, i: nat, t: nat)
    requires Compete(cfg, a, b, r)
    ensures IsRun(x.run, x.labels) && x.run[0] == State(Tables(cfg), [])
    ensures i <= |x.labels| && Picked(x.labels, i, |x.labels|, t) == n
    ensures forall k :: i <= k < |x.labels| && Picks(x.labels[k], t) ==> x.labels[k].a.v == a
  {
    hide Next, Init, Tables, Short, Picked, Failed;
    var y, m := SecondLacks(cfg, a, b, r);
    i, t := |y.labels|, 2;
    x := FailedKillsUnbounded(y, t, b, 1, r, 1, a, n);
  }

  // ---------------------------------------------------------------- a release that nobody hears

  /** While the idle stop holds the mutex of `a` there is no victim, and its clean-up frees enough. */
  lemma StopHolds(m: Shared, cfg: Config, a: Service, b: Service, r: Resource)
    requires BothIn(m, cfg, a, b) && Compete(cfg, a, b, r)
    ensures |m.instances| == 2 && |Acquire(m, 0, 3).instances| == 2 && m.instances[0].holder.None?
    ensures a in m.running && m.running[a] == 0
    ensures forall v :: !Eligible(Acquire(m, 0, 3), b, r, 1, v)
    ensures PassCommits(CleanUp(Acquire(m, 0, 3), 0), b, true)
  {
    var m' := Acquire(m, 0, 3);
    forall v ensures !Eligible(m', b, r, 1, v) {
    }
    assert CleanUp(m', 0).cfg == cfg && forall p :: Get(CleanUp(m', 0).inUse, p) == 0;
    forall p ensures !StaticShort(CleanUp(m', 0), b, p) {
    }
  }

  /** The idle timer of `a` fires and its stop gets as far as the killed process. */
  lemma IdleSteps(m: Shared, cfg: Config, a: Service, b: Service, m1: Shared)
    requires BothIn(m, cfg, a, b) && m1 == Acquire(m, 0, 3) && |m1.instances| == 2
    ensures Occur(IdleTimer(0), m, m, [IdleFired(a, 0)])
    ensures Step(3, Action.Idle, m, IdleFired(a, 0), m, StopLookup(a, AfterIdle), [])
    ensures Step(3, Kill(true), m1, StopHold(a, 0, AfterIdle), m1, StopClean(a, 0, AfterIdle), [])
  {
    hide StartStep, ClientStep, CleanUp, Resume, ResumePc, Acquire, Free, GiveBack;
  }

  /** Just before the last release: `b` is about to register, and the clean-up of `a` is next. */
  lemma AboutToPark(cfg: Config, a: Service, b: Service, r: Resource) returns (x: Trace, m: Shared)
    requires Compete(cfg, a, b, r)
    ensures |m.instances| == 2 && PassCommits(CleanUp(m, 0), b, true)
    ensures Stands(x, cfg, m, 4, 2, Starting(b, 1, Parking(r)))
    ensures Last(x).threads[3] == StopClean(a, 0, AfterIdle)
  {
    hide IsRun, Tables, BothIn, Compete, Short, PassStep, PendingStep, CleanUp, Unregister, Enlist, Take, PassCommits,
         Eligible, Acquire;
    var y, m0 := SecondLacks(cfg, a, b, r);
    StopHolds(m0, cfg, a, b, r);
    m := Acquire(m0, 0, 3);
    IdleSteps(m0, cfg, a, b, m);
    StopSteps(3, m0, a, 0, AfterIdle);
    StartIsStep(2, EvictNone(1), m, b, 1, Lacking(r), m, Starting(b, 1, Parking(r)), []);
    hide Step, StartStep, Occur;
    x := Happens(y, cfg, m0, 3, IdleTimer(0), IdleFired(a, 0));
    x := Acts(x, cfg, m0, 4, 3, IdleFired(a, 0), Action.Idle, m0, StopLookup(a, AfterIdle));
    x := Acts(x, cfg, m0, 4, 3, StopLookup(a, AfterIdle), StopFind, m0, StopWait(a, 0, AfterIdle));
    x := Acts(x, cfg, m0, 4, 3, StopWait(a, 0, AfterIdle), StopLock, m, StopHold(a, 0, AfterIdle));
    x := Acts(x, cfg, m, 4, 3, StopHold(a, 0, AfterIdle), Kill(true), m, StopClean(a, 0, AfterIdle));
    assert Stands(x, cfg, m, 4, 2, Starting(b, 1, Lacking(r)));
    x := Acts(x, cfg, m, 4, 2, Starting(b, 1, Lacking(r)), EvictNone(1), m, Starting(b, 1, Parking(r)));
  }

  /** Two services that compete for a resource: there is a run in which one waits for the other although
      nothing is in use any more, on an empty channel, because the release came before it registered. */
  lemma ReleaseLost(cfg: Config, a: Service, b: Service, r: Resource) returns (x: Trace, t: nat, ch: nat)
    requires Compete(cfg, a, b, r)
    ensures IsRun(x.run, x.labels) && x.run[0] == State(Tables(cfg), [])
    ensures PassCommits(Last(x).m, b, true) && Listening(Last(x), t, r, ch) && !Signalled(Last(x), ch)
  {
    hide IsRun, Tables, Compete, CleanUp, PassCommits, Next, Listening, Signalled, Inv;
    var m;
    x, m := AboutToPark(cfg, a, b, r);
    var s := Last(x);
    RunInv(x.run, x.labels, |x.labels|);
    t, ch := 2, |m.channels|;
    var s1, s2 := ReleaseBeforePark(s, t, 3, b, 1, r, a, 0, AfterIdle);
    x := Append(x, Do(3, StopCleanUp), s1);
    x := Append(x, Do(t, Park), s2);
  }

  // ---------------------------------------------------------------- an idle timer of an instance that is gone

  /** The process of the only instance ends before its start does, and is cleaned up after. */
  function Died(m: Shared): Shared
    requires |m.instances| == 1 && |CleanUp(m, 0).instances| == 1 && |MakeReady(CleanUp(m, 0), 0).instances| == 1
  {
    Free(MakeReady(CleanUp(m, 0), 0), 0)
  }

  lemma DiedShape(m: Shared, a: Service)
    requires |m.instances| == 1 && m.running == map[a := 0] && m.instances[0].svc == a && !m.instances[0].released
    ensures |CleanUp(m, 0).instances| == 1 && |MakeReady(CleanUp(m, 0), 0).instances| == 1
    ensures Died(m).running == map[] && Died(m).stats == m.stats && Died(m).cfg == m.cfg
    ensures |Died(m).instances| == 1
    ensures var x := Died(m).instances[0]; x.svc == a && x.released && x.ready && x.timer && x.holder.None?
  {
    hide Fill, Listeners, Minus;
  }

  lemma DieSteps(m: Shared, a: Service)
    requires |m.instances| == 1 && a in m.cfg.stopOnExit
    ensures Step(1, Exit, m, Reaping(a, 0), m, Reaped(a, 0), [])
    ensures Step(1, Reap, m, Reaped(a, 0), CleanUp(m, 0), Done, [])
  {
    hide StartStep, ClientStep, CleanUp;
  }

  lemma StaleSteps(m: Shared, a: Service)
    requires |m.instances| == 2 && m.running == map[a := 1] && m.instances[0].ready && m.instances[0].timer
    requires m.instances[0].svc == a && m.instances[0].holder.None? && StatsOf(m, a).proxied == 0
    ensures Occur(IdleTimer(0), m, m, [IdleFired(a, 0)])
    ensures Step(3, Action.Idle, m, IdleFired(a, 0), m, StopLookup(a, AfterIdle), [])
    ensures Step(3, StopFind, m, StopLookup(a, AfterIdle), m, StopWait(a, 1, AfterIdle), [])
  {
    hide StartStep, ClientStep, CleanUp;
  }

  /** The only instance is gone, but ready; its client is still counted as waiting. */
  ghost predicate Gone(m: Shared, cfg: Config, a: Service) {
    && m.cfg == cfg && m.running == map[] && |m.instances| == 1 && StatsOf(m, a) == Stats(0, 1)
    && var x := m.instances[0]; x.svc == a && x.released && x.ready && x.timer && x.holder.None?
  }

  lemma Dies(x: Trace, cfg: Config, m: Shared, a: Service) returns (z: Trace, m': Shared)
    requires |m.instances| == 1 && Stands(x, cfg, Launched(m), 2, 0, Starting(a, 0, MakingReady))
    requires |Last(x).threads| == 2 && Last(x).threads[1] == Reaping(a, 0)
    requires m.cfg == cfg && a in cfg.stopOnExit && m.running == map[a := 0]
    requires m.instances[0].svc == a && !m.instances[0].released && StatsOf(m, a) == Stats(0, 1)
    ensures Stands(z, cfg, m', 2, 0, Connected(a)) && Gone(m', cfg, a)
  {
    assert var x, m' := m.instances[0], Launched(m);
           && m'.running == m.running && m'.stats == m.stats && m'.cfg == m.cfg && |m'.instances| == 1
           && m'.instances[0].svc == x.svc && m'.instances[0].released == x.released;
    hide IsRun, Tables, CleanUp, MakeReady, Launched, Step, Free;
    var m1 := Launched(m);
    DieSteps(m1, a);
    DiedShape(m1, a);
    m' := Died(m1);
    hide Died;
    assert Stands(x, cfg, m1, 2, 1, Reaping(a, 0));
    z := Acts(x, cfg, m1, 2, 1, Reaping(a, 0), Exit, m1, Reaped(a, 0));
    z := Acts(z, cfg, m1, 2, 1, Reaped(a, 0), Reap, CleanUp(m1, 0), Done);
    z := Readies(z, cfg, CleanUp(m1, 0), a);
    assert m' == Free(MakeReady(CleanUp(m1, 0), 0), 0) by { Unfold(m1); }
  }

  lemma Unfold(m: Shared)
    requires |m.instances| == 1 && |CleanUp(m, 0).instances| == 1 && |MakeReady(CleanUp(m, 0), 0).instances| == 1
    ensures Died(m) == Free(MakeReady(CleanUp(m, 0), 0), 0)
  {
  }

  /** Then another client starts the service anew, and the old timer fires. */
  lemma Stales(x: Trace, cfg: Config, m: Shared, a: Service) returns (z: Trace, s1: State, s2: State)
    requires Stands(x, cfg, m, 2, 0, Connected(a)) && Gone(m, cfg, a) && a in cfg.requirements
    ensures Reaches(z, cfg, Arrived(m, a, 2), 4) && Last(z).threads[3] == IdleFired(a, 0)
    ensures Last(z).threads[2] == Starting(a, 1, Pass(true))
    ensures Next(Last(z), Do(3, Action.Idle), s1) && Next(s1, Do(3, StopFind), s2)
    ensures |s2.threads| == 4 && s2.threads[3] == StopWait(a, 1, AfterIdle)
  {
    hide IsRun, Tables, Step, Occur, Next;
    var m2 := Arrived(m, a, 2);
    StaleSteps(m2, a);
    z := Arrives(x, cfg, m, 2, a);
    z := Happens(z, cfg, m2, 3, IdleTimer(0), IdleFired(a, 0));
    s1 := State(m2, Last(z).threads[3 := StopLookup(a, AfterIdle)]);
    s2 := State(m2, s1.threads[3 := StopWait(a, 1, AfterIdle)]);
    StepIsNext(Last(z), 3, Action.Idle, m2, StopLookup(a, AfterIdle));
    StepIsNext(s1, 3, StopFind, m2, StopWait(a, 1, AfterIdle));
  }

  /** A service that fits alone and counts as stopped when its process ends: there is a run in which the idle timer of
      an instance that is gone fires, and its stop goes after the next instance, which is still starting. */
  lemma StaleTimer(cfg: Config, a: Service) returns (x: Trace, s1: State, s2: State)
    requires cfg.Valid() && Fits(cfg, a) && a in cfg.stopOnExit
    ensures IsRun(x.run, x.labels) && x.run[0] == State(Tables(cfg), [])
    ensures |Last(x).threads| == 4 && Last(x).threads[3] == IdleFired(a, 0)
    ensures |Last(x).m.instances| == 2 && Last(x).m.instances[0].released && !Last(x).m.instances[1].released
    ensures Last(x).threads[2] == Starting(a, 1, Pass(true))
    ensures Next(Last(x), Do(3, Action.Idle), s1) && Next(s1, Do(3, StopFind), s2)
    ensures |s2.threads| == 4 && s2.threads[3] == StopWait(a, 1, AfterIdle)
  {
    x := Trace([State(Tables(cfg), [])], []);
    var m0 := Tables(cfg);
    assert Reaches(x, cfg, m0, 0) && a in cfg.requirements && a !in m0.running && StatsOf(m0, a) == Stats(0, 0);
    assert m0.instances == [] && m0.cfg == cfg;
    var m := Arrived(m0, a, 0);
    FirstFits(cfg, a);
    assert |m.instances| == 1 && m.instances[0].svc == a && !m.instances[0].released;
    hide IsRun, Tables, Next, PassCommits, Fits, Launched, Arrived, Init;
    x := Arrives(x, cfg, m0, 0, a);
    x := Launches(x, cfg, m, a);
    var m';
    x, m' := Dies(x, cfg, m, a);
    x, s1, s2 := Stales(x, cfg, m', a);
    ArrivedShape(m', a, 2);
  }

  lemma ArrivedShape(m: Shared, a: Service, t: nat)
    ensures |Arrived(m, a, t).instances| == |m.instances| + 1
    ensures forall i :: 0 <= i < |m.instances| ==> Arrived(m, a, t).instances[i] == m.instances[i]
    ensures !Arrived(m, a, t).instances[|m.instances|].released
  {
  }
}
