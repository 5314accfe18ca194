/** What a pass of the reservation loop decides, in terms of the instances and the goroutines. */
module Admission {
  import opened Model
  import opened Machine
  import opened Invariant
  import opened Steps
  import opened Ledger
  import opened Reachable
  import opened Deadlock
  import opened EvictionTheorems

  /** The unreleased instances that have committed leave enough of `r`. */
  ghost predicate Spare(s: State, q: Service, r: Resource) {
    SumUse(s.m.cfg, s.m.instances, r) + s.m.cfg.Need(q, r) <= Get(s.m.cfg.amount, r)
  }

  /** The last measurement of `r` leaves enough beside what the unfinished starts have been promised. */
  ghost predicate Measures(s: State, q: Service, r: Resource) {
    Sum(Owed(s.m.cfg, r), s.threads) + s.m.cfg.Need(q, r) <= Get(s.m.available, r)
  }

  /** Every required resource without a CheckCommand suffices. */
  ghost predicate AllSpare(s: State, q: Service) {
    forall r :: r in s.m.cfg.Requirement(q) && r !in s.m.cfg.check ==> Spare(s, q, r)
  }

  /** Goroutine `t` can take the step `a`. */
  ghost predicate Can(s: State, t: nat, a: Action) {
    t < |s.threads| && exists m', pc', spawn :: Step(t, a, s.m, s.threads[t], m', pc', spawn)
  }

  // ---------------------------------------------------------------- the two tests

  lemma Tests(s: State, q: Service, r: Resource)
    requires Books(s)
    ensures StaticShort(s.m, q, r) <==> r in s.m.cfg.Requirement(q) && r !in s.m.cfg.check && !Spare(s, q, r)
    ensures MeasuredShort(s.m, q, r) <==> r in s.m.cfg.Requirement(q) && r in s.m.cfg.check && !Measures(s, q, r)
  {
    assert Get(s.m.inUse, r) == SumUse(s.m.cfg, s.m.instances, r);
    assert Get(s.m.reserved, r) == Sum(Owed(s.m.cfg, r), s.threads);
    hide SumUse, Sum;
  }

  lemma EnoughTests(s: State, q: Service)
    requires Books(s)
    ensures StaticEnough(s.m, q) <==> AllSpare(s, q)
    ensures MeasuredEnough(s.m, q)
            <==> forall r :: r in s.m.cfg.Requirement(q) && r in s.m.cfg.check ==> Measures(s, q, r)
    ensures s.m.cfg.Measured(q) == {} <==> forall r :: r in s.m.cfg.Requirement(q) ==> r !in s.m.cfg.check
  {
    hide Books, Spare, Measures, StaticShort, MeasuredShort;
    forall r ensures StaticShort(s.m, q, r) <==> r in s.m.cfg.Requirement(q) && r !in s.m.cfg.check && !Spare(s, q, r)
      ensures MeasuredShort(s.m, q, r) <==> r in s.m.cfg.Requirement(q) && r in s.m.cfg.check && !Measures(s, q, r)
    {
      Tests(s, q, r);
    }
    assert forall r :: r in s.m.cfg.Measured(q) <==> r in s.m.cfg.Requirement(q) && r in s.m.cfg.check;
    assert s.m.cfg.Measured(q) == {} <==> forall r :: r !in s.m.cfg.Measured(q);
  }

  // ---------------------------------------------------------------- the steps of a pass

  lemma CanPass(s: State, t: nat, a: Action, q: Service, b: nat, recheck: bool)
    requires t < |s.threads| && s.threads[t] == Starting(q, b, Pass(recheck)) && b < |s.m.instances|
    ensures Can(s, t, a) <==> exists m', pc' :: PassStep(a, s.m, q, b, recheck, m', pc')
  {
    hide PassStep;
    if Can(s, t, a) {
      var m', pc', spawn :| Step(t, a, s.m, s.threads[t], m', pc', spawn);
      assert StartStep(t, a, s.m, q, b, Pass(recheck), m', pc', spawn);
      hide Step;
    }
    if m', pc' :| PassStep(a, s.m, q, b, recheck, m', pc') {
      assert StartStep(t, a, s.m, q, b, Pass(recheck), m', pc', []);
      StartIsStep(t, a, s.m, q, b, Pass(recheck), m', pc', []);
    }
  }

  lemma CommitSteps(m: Shared, q: Service, b: nat, recheck: bool)
    requires b < |m.instances|
    ensures (exists m', pc' :: PassStep(PassCommit, m, q, b, recheck, m', pc')) <==> PassCommits(m, q, recheck)
    ensures (exists chans, m', pc' :: PassStep(PassAsk(chans), m, q, b, recheck, m', pc')) <==> PassAsks(m, q, recheck)
  {
    hide PassCommits, PassLacks, PassAsks, FreshChannels, Asked, Commit, Unregister;
    if PassCommits(m, q, recheck) {
      CommitMoves(m, q, b, recheck);
    }
    if PassAsks(m, q, recheck) {
      AskMoves(m, q, b, recheck);
    }
  }

  lemma LackSteps(m: Shared, q: Service, b: nat, recheck: bool, r: Resource)
    requires b < |m.instances|
    ensures (exists m', pc' :: PassStep(PassLack(r), m, q, b, recheck, m', pc')) <==> PassLacks(m, q, recheck, r)
  {
    hide PassCommits, PassLacks, PassAsks, FreshChannels, Asked, Commit, Unregister;
    if PassLacks(m, q, recheck, r) {
      LackMoves(m, q, b, recheck, r);
    }
  }

  lemma ReserverBooks(run: seq<State>, labels: seq<Label>, k: nat, t: nat)
    requires IsRun(run, labels) && k < |run| && t < |run[k].threads| && run[k].threads[t].Starting?
    ensures Books(run[k]) && run[k].threads[t].b < |run[k].m.instances|
    ensures run[k].m.instances[run[k].threads[t].b].svc == run[k].threads[t].svc
  {
    hide Books, SharedOk, HoldersExist;
    RunInv(run, labels, k);
    assert ThreadOk(run[k].m, t, run[k].threads[t]);
    assert run[k].threads[t].b in Holds(run[k].threads[t]);
  }

  /** A pass can reserve if and only if every required resource suffices and none awaits a measurement,
      ask if and only if it is to measure and the others suffice, and report `r` if and only if `r` is short:
      by the instances, or, when all of those suffice, by the measurement it trusts. */
  lemma PassDecides(run: seq<State>, labels: seq<Label>, k: nat, t: nat, r: Resource)
    requires IsRun(run, labels) && k < |run| && t < |run[k].threads|
    requires run[k].threads[t].Starting? && run[k].threads[t].phase.Pass?
    ensures var s, q, recheck := run[k], run[k].threads[t].svc, run[k].threads[t].phase.recheck;
            var need, check := s.m.cfg.Requirement(q), s.m.cfg.check;
            && (Can(s, t, PassCommit) <==>
                  AllSpare(s, q) && forall p :: p in need && p in check ==> !recheck && Measures(s, q, p))
            && ((exists chans :: Can(s, t, PassAsk(chans))) <==>
                  AllSpare(s, q) && recheck && exists p :: p in need && p in check)
            && (Can(s, t, PassLack(r)) <==>
                  && r in need
                  && if r !in check then !Spare(s, q, r) else AllSpare(s, q) && !recheck && !Measures(s, q, r))
  {
    hide Spare, Measures, Can, PassStep, StaticShort, MeasuredShort, AllSpare, IsRun, Books;
    var s, q, b, recheck := run[k], run[k].threads[t].svc, run[k].threads[t].b, run[k].threads[t].phase.recheck;
    ReserverBooks(run, labels, k, t);
    CanPass(s, t, PassCommit, q, b, recheck);
    CanPass(s, t, PassLack(r), q, b, recheck);
    forall chans
      ensures Can(s, t, PassAsk(chans)) <==> exists m', pc' :: PassStep(PassAsk(chans), s.m, q, b, recheck, m', pc')
    {
      CanPass(s, t, PassAsk(chans), q, b, recheck);
    }
    CommitSteps(s.m, q, b, recheck);
    LackSteps(s.m, q, b, recheck, r);
    Tests(s, q, r);
    EnoughTests(s, q);
  }

  lemma Committing(t: nat, m: Shared, pc: Pc, m': Shared, pc': Pc, spawn: seq<Pc>)
    requires Step(t, PassCommit, m, pc, m', pc', spawn)
    ensures pc.Starting? && pc.phase.Pass? && pc.b < |m.instances| && m' == Commit(m, pc.b)
    ensures PassCommits(m, pc.svc, pc.phase.recheck)
  {
    hide PassCommits, Commit, IsVictim, Eligible, CleanUp;
  }

  lemma CommitAmounts(m: Shared, b: nat, q: Service, recheck: bool, r: Resource)
    requires b < |m.instances| && m.instances[b].svc == q && PassCommits(m, q, recheck)
    ensures Commit(m, b).cfg == m.cfg && Commit(m, b).available == m.available
    ensures r in m.cfg.Requirement(q) && r in m.cfg.check ==>
              Get(Commit(m, b).reserved, r) <= Get(m.available, r)
    ensures r in m.cfg.Requirement(q) && r !in m.cfg.check ==> Get(Commit(m, b).inUse, r) <= Get(m.cfg.amount, r)
  {
    assert !StaticShort(m, q, r) && (!recheck ==> !MeasuredShort(m, q, r)) && (recheck ==> r !in m.cfg.Measured(q));
    hide Unregister;
  }

  /** After a commit the shares of all unfinished starts together fit each measured resource's last
      measurement, and the committed instances fit the amount of each other one. */
  lemma CommitFits(run: seq<State>, labels: seq<Label>, k: nat, t: nat, r: Resource)
    requires IsRun(run, labels) && k < |labels| && labels[k] == Do(t, PassCommit)
    ensures t < |run[k].threads| && run[k].threads[t].Starting? && run[k + 1].m.available == run[k].m.available
    ensures r in run[k].m.cfg.Requirement(run[k].threads[t].svc) ==>
              if r in run[k].m.cfg.check
              then Sum(Owed(run[k].m.cfg, r), run[k + 1].threads) <= Get(run[k].m.available, r)
              else SumUse(run[k].m.cfg, run[k + 1].m.instances, r) <= Get(run[k].m.cfg.amount, r)
  {
    hide Step, Books, SharedOk, ThreadsOk, HoldersExist;
    RunInv(run, labels, k + 1);
    var s, s' := run[k], run[k + 1];
    assert Next(s, labels[k], s');
    var pc := s.threads[t];
    Committing(t, s.m, pc, s'.m, s'.threads[t], s'.threads[|s.threads|..]);
    ReserverBooks(run, labels, k, t);
    CommitAmounts(s.m, pc.b, pc.svc, pc.phase.recheck, r);
    hide IsRun, Next, PassCommits, Commit;
    BooksOf(s', r);
  }

  lemma BooksOf(s: State, r: Resource)
    requires Books(s)
    ensures Get(s.m.inUse, r) == SumUse(s.m.cfg, s.m.instances, r)
    ensures Get(s.m.reserved, r) == Sum(Owed(s.m.cfg, r), s.threads)
  {
  }

  // ---------------------------------------------------------------- refusals

  /** The start at `pc` is refused, or is about to be. */
  predicate Ending(pc: Pc) {
    && pc.Starting?
    && (pc.phase.Refused? || (pc.phase.PendingDone? && !pc.phase.ok) || (pc.phase.Leaving? && pc.phase.signal.None?))
  }

  /** A wait for a change or for measurements is given up: the deadline passed, or the client went away. */
  predicate GivesUp(a: Action, pc: Pc) {
    && pc.Starting?
    && ((a.WaitAbort? && pc.phase.Waiting?) || (a.PendingAbort? && pc.phase.Pending? && pc.phase.todo != {}))
  }

  lemma LoopEnds(t: nat, a: Action, m: Shared, s: Service, b: nat, phase: Phase, m': Shared, pc': Pc, spawn: seq<Pc>)
    requires b < |m.instances| && StartStep(t, a, m, s, b, phase, m', pc', spawn) && Ending(pc')
    requires phase.Pending? || phase.PendingDone? || phase.Lacking? || phase.Parking? || phase.Waiting?
             || phase.Leaving?
    ensures pc'.svc == s && pc'.b == b && (Ending(Starting(s, b, phase)) || GivesUp(a, Starting(s, b, phase)))
  {
    hide IsVictim, Eligible, PassStep, CleanUp, MakeReady, Mark, SetCommand, GiveBack, Unregister, Enlist, Take;
  }

  lemma CommandEndsNot(t: nat, a: Action, m: Shared, s: Service, b: nat, phase: Phase, m': Shared, pc': Pc,
                       spawn: seq<Pc>)
    requires b < |m.instances| && StartStep(t, a, m, s, b, phase, m', pc', spawn)
    requires !phase.Pass? && !phase.Pending? && !phase.PendingDone? && !phase.Lacking? && !phase.Parking?
             && !phase.Waiting? && !phase.Leaving?
    ensures !Ending(pc')
  {
    hide PassStep, PendingStep, CleanUp, MakeReady, Mark, SetCommand, GiveBack;
  }

  lemma StopEndsNot(t: nat, a: Action, m: Shared, pc: Pc, m': Shared, pc': Pc, spawn: seq<Pc>)
    requires Step(t, a, m, pc, m', pc', spawn)
    requires pc.StopLookup? || pc.StopWait? || pc.StopHold? || pc.StopClean? || pc.Unlocking? || pc.IdleFired?
             || pc.Reaping? || pc.Reaped? || pc.Returning?
    ensures !Ending(pc')
  {
    hide StartStep, ClientStep, CleanUp, Resume, Free, Acquire, GiveBack, CanBeStopped;
  }

  lemma StepEnds(t: nat, a: Action, m: Shared, pc: Pc, m': Shared, pc': Pc, spawn: seq<Pc>)
    requires Step(t, a, m, pc, m', pc', spawn) && Ending(pc')
    ensures pc.Starting? && pc'.svc == pc.svc && pc'.b == pc.b && (Ending(pc) || GivesUp(a, pc))
  {
    hide StartStep, ClientStep, GivesUp, EvictOk, Removing;
    if pc.Starting? {
      var phase := pc.phase;
      if phase.Pass? {
        StartPasses(t, a, m, pc.svc, pc.b, phase, m', pc', spawn);
      } else if phase.Pending? || phase.PendingDone? || phase.Lacking? || phase.Parking? || phase.Waiting?
                || phase.Leaving? {
        LoopEnds(t, a, m, pc.svc, pc.b, phase, m', pc', spawn);
      } else {
        CommandEndsNot(t, a, m, pc.svc, pc.b, phase, m', pc', spawn);
      }
    } else if pc.StopLookup? || pc.StopWait? || pc.StopHold? || pc.StopClean? || pc.Unlocking? || pc.IdleFired?
              || pc.Reaping? || pc.Reaped? || pc.Returning? {
      hide Step;
      StopEndsNot(t, a, m, pc, m', pc', spawn);
    } else {
      ClientPicksNot(t, a, m, pc, m', pc', spawn);
    }
  }

  /** A reservation is refused only after its goroutine gave up a wait: for a change of the resource that it found
      missing, or for measurements. Nothing but the end of the wait lies between. */
  lemma {:induction false} RefusedAfterWaiting(run: seq<State>, labels: seq<Label>, k: nat, t: nat) returns (p: nat)
    requires IsRun(run, labels) && k < |run| && t < |run[k].threads| && Ending(run[k].threads[t])
    ensures p < k && labels[p].Do? && labels[p].t == t && t < |run[p].threads|
    ensures GivesUp(labels[p].a, run[p].threads[t])
    ensures run[p].threads[t].svc == run[k].threads[t].svc && run[p].threads[t].b == run[k].threads[t].b
    ensures forall q :: p < q <= k ==> t < |run[q].threads| && Ending(run[q].threads[t])
  {
    NotAtStart(run, labels, k, t);
    var s, l, s' := run[k - 1], labels[k - 1], run[k];
    assert Next(s, l, run[k - 1 + 1]);
    hide GivesUp, Init, Next, Step, Ending;
    EndingNow(s, l, s', t);
    if l.Do? && l.t == t && GivesUp(l.a, s.threads[t]) {
      p := k - 1;
    } else {
      p := RefusedAfterWaiting(run, labels, k - 1, t);
    }
  }

  lemma EndingNow(s: State, l: Label, s': State, t: nat)
    requires Next(s, l, s') && t < |s'.threads| && Ending(s'.threads[t])
    ensures s'.threads[t].Starting? && t < |s.threads| && s.threads[t].Starting?
    ensures s.threads[t].svc == s'.threads[t].svc && s.threads[t].b == s'.threads[t].b
    ensures Ending(s.threads[t]) || (l.Do? && l.t == t && GivesUp(l.a, s.threads[t]))
  {
    hide Step, GivesUp;
    if l.Do? && l.t == t {
      StepEnds(t, l.a, s.m, s.threads[t], s'.m, s'.threads[t], s'.threads[|s.threads|..]);
    } else {
      ThreadStays(s, l, s', t);
    }
  }

  /** Whoever gives up a wait is refused: the steps that follow drop the registrations, clean the instance up and give
      up the connection. */
  lemma GivingUpRefuses(run: seq<State>, labels: seq<Label>, k: nat, t: nat, a: Action)
    requires IsRun(run, labels) && k < |labels| && labels[k] == Do(t, a) && t < |run[k].threads|
    requires Ending(run[k].threads[t]) || GivesUp(a, run[k].threads[t])
    ensures t < |run[k + 1].threads|
    ensures var pc, pc', m' := run[k].threads[t], run[k + 1].threads[t], run[k + 1].m;
            if pc.phase.Refused?
            then pc' == Unlocking(pc.svc, pc.b, ToGiveUp) && pc.b < |m'.instances| && m'.instances[pc.b].released
            else Ending(pc') && pc'.svc == pc.svc && pc'.b == pc.b
  {
    var s, s' := run[k], run[k + 1];
    assert Next(s, labels[k], s');
    var pc, pc', spawn := s.threads[t], s'.threads[t], s'.threads[|s.threads|..];
    assert StartStep(t, a, s.m, pc.svc, pc.b, pc.phase, s'.m, pc', spawn) by { hide StartStep, ClientStep, IsRun; }
    hide IsRun, Next, Step;
    if pc.phase.Refused? {
      CleanUpKeepsHolder(s.m, pc.b);
      hide CleanUp;
    } else {
      hide PassStep, Take, Unregister;
    }
  }
}
