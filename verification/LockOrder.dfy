/** The other mutexes: every critical section takes them in one order, so they never wedge. The
    manageMutex is only tried, never waited for, while one of them is held. */
module LockOrder {
  import opened Model

  datatype Mutex =
    | ServiceMutex | ChangeMutex | AvailableMutex | StatsMutex | UnpauseMutex | WriteMutex
    | Manage(i: nat)                   // the manageMutex of an instance, while it is tried

  /** `Wait` blocks on a manageMutex; who has it for long is not part of this machine. */
  datatype Op = Take(l: Mutex) | Give(l: Mutex) | Try(i: nat) | Wait(i: nat)

  function Rank(l: Mutex): nat {
    match l case Manage(_) => 0 case ServiceMutex => 0 case _ => 1
  }

  /** The rest of a critical section takes mutexes of rising rank only, waits for a manageMutex only
      without any of them, and gives back what it holds. */
  predicate Ordered(held: set<Mutex>, todo: seq<Op>)
    decreases |todo|
  {
    if todo == [] then held == {}
    else
      match todo[0]
      case Take(l) => (forall h :: h in held ==> Rank(h) < Rank(l)) && Ordered(held + {l}, todo[1..])
      case Give(l) => l in held && Ordered(held - {l}, todo[1..])
      case Try(i) => Manage(i) !in held && Ordered(held + {Manage(i)}, todo[1..])
      case Wait(_) => held == {} && Ordered(held, todo[1..])
  }

  // ---------------------------------------------------------------- the sections of the program

  function Times(n: nat, ops: seq<Op>): seq<Op> {
    if n == 0 then [] else ops + Times(n - 1, ops)
  }

  /** canBeStopped for one candidate whose manageMutex was free. */
  function Candidate(i: nat): seq<Op> {
    [Try(i)] + Brief(StatsMutex) + [Give(Manage(i))]
  }

  function Candidates(tried: seq<nat>): seq<Op> {
    if tried == [] then [] else Candidate(tried[0]) + Candidates(tried[1..])
  }

  function Under(inner: seq<Op>): seq<Op> {
    [Take(ServiceMutex)] + inner + [Give(ServiceMutex)]
  }

  function Brief(l: Mutex): seq<Op> {
    [Take(l), Give(l)]
  }

  datatype Section =
    | Registry                         // look-ups, insertions and flag updates under serviceMutex
    | CommitOrRefuse(cached: nat)      // a pass: cached tests, then the registrations it drops
    | AskMonitors(resources: nat)      // a pass that registers and pokes a monitor per resource
    | ChooseVictim(tried: seq<nat>)    // canBeStopped for each candidate; `tried` had a free manageMutex
    | Idle(i: nat)                     // canBeStopped in the idle timer
    | LockManage(i: nat)               // a stop or a queued client takes the manageMutex of an instance
    | CleanUpInstance                  // FinalFlush of both writers, then the broadcast
    | Status(measured: nat)            // the connection snapshot, then the ledger
    | Connections                      // a counter, then the broadcast
    | Waiters                          // registration and deregistration
    | Monitor                          // caching a result, then the broadcast
    | LogWrite                         // serviceLoggingWriter.Write

  function Script(s: Section): seq<Op> {
    match s
    case Registry => Under([])
    case CommitOrRefuse(n) => Under(Times(n, Brief(AvailableMutex)) + Brief(ChangeMutex))
    case AskMonitors(n) => Under(Times(n, Brief(ChangeMutex) + Brief(UnpauseMutex)))
    case ChooseVictim(tried) => Under(Candidates(tried))
    case Idle(i) => Under(Candidate(i))
    case LockManage(i) => [Wait(i)]
    case CleanUpInstance => Under(Brief(WriteMutex) + Brief(WriteMutex) + Brief(ChangeMutex))
    case Status(n) => Brief(StatsMutex) + Under(Times(n, Brief(AvailableMutex)))
    case Connections => Brief(StatsMutex) + Brief(ChangeMutex)
    case Waiters => Brief(ChangeMutex)
    case Monitor => Brief(AvailableMutex) + Brief(ChangeMutex)
    case LogWrite => Brief(WriteMutex)
  }

  /** `ops` can run where `held` is held, and leaves it held. */
  ghost predicate Neutral(held: set<Mutex>, ops: seq<Op>) {
    forall more :: Ordered(held, more) ==> Ordered(held, ops + more)
  }

  lemma BriefNeutral(held: set<Mutex>, l: Mutex)
    requires forall h :: h in held ==> Rank(h) < Rank(l)
    ensures Neutral(held, Brief(l))
  {
    forall more | Ordered(held, more) ensures Ordered(held, Brief(l) + more) {
      var all := Brief(l) + more;
      assert all[1..][1..] == more && all[1] == Give(l);
      assert held + {l} - {l} == held;
    }
  }

  lemma NeutralPlus(held: set<Mutex>, a: seq<Op>, b: seq<Op>)
    requires Neutral(held, a) && Neutral(held, b)
    ensures Neutral(held, a + b)
  {
    forall more | Ordered(held, more) ensures Ordered(held, a + b + more) {
      assert Ordered(held, a + (b + more));
      assert a + (b + more) == a + b + more;
    }
  }

  lemma NeutralNothing(held: set<Mutex>)
    ensures Neutral(held, [])
  {
    forall more | Ordered(held, more) ensures Ordered(held, [] + more) {
      assert [] + more == more;
    }
  }

  lemma {:induction false} TimesNeutral(held: set<Mutex>, n: nat, ops: seq<Op>)
    requires Neutral(held, ops)
    ensures Neutral(held, Times(n, ops))
  {
    hide Neutral;
    if n == 0 {
      NeutralNothing(held);
    } else {
      TimesNeutral(held, n - 1, ops);
      NeutralPlus(held, ops, Times(n - 1, ops));
    }
  }

  lemma CandidateNeutral(i: nat)
    ensures Neutral({ServiceMutex}, Candidate(i))
  {
    var held := {ServiceMutex};
    forall more | Ordered(held, more) ensures Ordered(held, Candidate(i) + more) {
      var end := [Give(Manage(i))] + more;
      assert end[1..] == more && held + {Manage(i)} - {Manage(i)} == held;
      BriefNeutral(held + {Manage(i)}, StatsMutex);
      var all := Candidate(i) + more;
      assert all[0] == Try(i) && all[1..] == Brief(StatsMutex) + end;
    }
  }

  lemma {:induction false} CandidatesNeutral(tried: seq<nat>)
    ensures Neutral({ServiceMutex}, Candidates(tried))
  {
    hide Neutral;
    if tried == [] {
      NeutralNothing({ServiceMutex});
    } else {
      CandidateNeutral(tried[0]);
      CandidatesNeutral(tried[1..]);
      NeutralPlus({ServiceMutex}, Candidate(tried[0]), Candidates(tried[1..]));
    }
  }

  lemma WaitNeutral(i: nat)
    ensures Neutral({}, [Wait(i)])
  {
    forall more | Ordered({}, more) ensures Ordered({}, [Wait(i)] + more) {
      var all := [Wait(i)] + more;
      assert all[0] == Wait(i) && all[1..] == more;
    }
  }

  lemma UnderNeutral(inner: seq<Op>)
    requires Neutral({ServiceMutex}, inner)
    ensures Neutral({}, Under(inner))
  {
    forall more | Ordered({}, more) ensures Ordered({}, Under(inner) + more) {
      var end := [Give(ServiceMutex)] + more;
      assert end[1..] == more && {ServiceMutex} - {ServiceMutex} == {};
      assert Ordered({ServiceMutex}, end);
      var all := Under(inner) + more;
      assert all[0] == Take(ServiceMutex) && all[1..] == inner + end;
      assert {} + {ServiceMutex} == {ServiceMutex};
    }
  }

  /** Every section of the program, however many resources and services it goes through, is ordered. */
  lemma SectionsOrdered(s: Section)
    ensures Ordered({}, Script(s))
  {
    assert Script(s) + [] == Script(s);
    assert Neutral({}, Script(s)) by {
      hide Neutral, Brief, Under, Times, Candidate, Candidates;
      InnerNeutral(s);
      var i := {ServiceMutex};
      match s
      case Registry => NeutralNothing(i); UnderNeutral([]);
      case CommitOrRefuse(n) => UnderNeutral(Times(n, Brief(AvailableMutex)) + Brief(ChangeMutex));
      case AskMonitors(n) => UnderNeutral(Times(n, Brief(ChangeMutex) + Brief(UnpauseMutex)));
      case ChooseVictim(tried) => CandidatesNeutral(tried); UnderNeutral(Candidates(tried));
      case Idle(j) => CandidateNeutral(j); UnderNeutral(Candidate(j));
      case LockManage(j) => WaitNeutral(j);
      case CleanUpInstance => UnderNeutral(Brief(WriteMutex) + Brief(WriteMutex) + Brief(ChangeMutex));
      case Status(n) =>
        BriefNeutral({}, StatsMutex);
        UnderNeutral(Times(n, Brief(AvailableMutex)));
        NeutralPlus({}, Brief(StatsMutex), Under(Times(n, Brief(AvailableMutex))));
      case Connections =>
        BriefNeutral({}, StatsMutex);
        BriefNeutral({}, ChangeMutex);
        NeutralPlus({}, Brief(StatsMutex), Brief(ChangeMutex));
      case Waiters => BriefNeutral({}, ChangeMutex);
      case Monitor =>
        BriefNeutral({}, AvailableMutex);
        BriefNeutral({}, ChangeMutex);
        NeutralPlus({}, Brief(AvailableMutex), Brief(ChangeMutex));
      case LogWrite => BriefNeutral({}, WriteMutex);
    }
  }

  lemma InnerNeutral(s: Section)
    ensures match s
            case CommitOrRefuse(n) => Neutral({ServiceMutex}, Times(n, Brief(AvailableMutex)) + Brief(ChangeMutex))
            case AskMonitors(n) => Neutral({ServiceMutex}, Times(n, Brief(ChangeMutex) + Brief(UnpauseMutex)))
            case CleanUpInstance => Neutral({ServiceMutex}, Brief(WriteMutex) + Brief(WriteMutex) + Brief(ChangeMutex))
            case Status(n) => Neutral({ServiceMutex}, Times(n, Brief(AvailableMutex)))
            case _ => true
  {
    hide Neutral, Brief, Times;
    var i := {ServiceMutex};
    BriefNeutral(i, AvailableMutex);
    BriefNeutral(i, ChangeMutex);
    BriefNeutral(i, UnpauseMutex);
    BriefNeutral(i, WriteMutex);
    match s
    case CommitOrRefuse(n) =>
      TimesNeutral(i, n, Brief(AvailableMutex));
      NeutralPlus(i, Times(n, Brief(AvailableMutex)), Brief(ChangeMutex));
    case AskMonitors(n) =>
      NeutralPlus(i, Brief(ChangeMutex), Brief(UnpauseMutex));
      TimesNeutral(i, n, Brief(ChangeMutex) + Brief(UnpauseMutex));
    case CleanUpInstance =>
      NeutralPlus(i, Brief(WriteMutex), Brief(WriteMutex));
      NeutralPlus(i, Brief(WriteMutex) + Brief(WriteMutex), Brief(ChangeMutex));
    case Status(n) => TimesNeutral(i, n, Brief(AvailableMutex));
    case _ =>
  }

  // ---------------------------------------------------------------- any number of goroutines

  datatype Goroutine = Goroutine(held: set<Mutex>, todo: seq<Op>)

  type State = seq<Goroutine>

  /** What the goroutine waits for before its next operation. Trying does not wait. */
  function Needed(g: Goroutine): Option<Mutex> {
    if g.todo == [] then None
    else
      match g.todo[0]
      case Take(l) => Some(l)
      case Wait(i) => Some(Manage(i))
      case _ => None
  }

  predicate CanStep(s: State, t: nat) {
    && t < |s| && s[t].todo != []
    && (Needed(s[t]).Some? ==> forall u :: 0 <= u < |s| ==> Needed(s[t]).value !in s[u].held)
  }

  function Stepped(g: Goroutine): Goroutine
    requires g.todo != []
  {
    match g.todo[0]
    case Take(l) => Goroutine(g.held + {l}, g.todo[1..])
    case Give(l) => Goroutine(g.held - {l}, g.todo[1..])
    case Try(i) => Goroutine(g.held + {Manage(i)}, g.todo[1..])
    case Wait(_) => Goroutine(g.held, g.todo[1..])
  }

  /** Inside a section, and not about to wait for a manageMutex. */
  predicate Inside(g: Goroutine) {
    g.todo != [] && !g.todo[0].Wait?
  }

  /** A goroutine takes its next step, or an idle one enters a section. */
  datatype Act = Run(t: nat) | Enter(t: nat, section: Section)

  ghost predicate Next(s: State, a: Act, s': State) {
    match a
    case Run(t) => CanStep(s, t) && s' == s[t := Stepped(s[t])]
    case Enter(t, section) => t < |s| && s[t].todo == [] && s' == s[t := Goroutine(s[t].held, Script(section))]
  }

  ghost predicate IsRun(run: seq<State>, acts: seq<Act>) {
    && |run| == |acts| + 1 && (forall t :: 0 <= t < |run[0]| ==> run[0][t] == Goroutine({}, []))
    && forall k :: 0 <= k < |acts| ==> Next(run[k], acts[k], run[k + 1])
  }

  ghost predicate Inv(s: State) {
    && (forall t :: 0 <= t < |s| ==> Ordered(s[t].held, s[t].todo))
    && forall t, u, l :: 0 <= t < u < |s| && l in s[t].held && !l.Manage? ==> l !in s[u].held
  }

  lemma StepInv(s: State, a: Act, s': State)
    requires Inv(s) && Next(s, a, s')
    ensures Inv(s')
  {
    if a.Enter? {
      SectionsOrdered(a.section);
    }
    forall t | 0 <= t < |s'| ensures Ordered(s'[t].held, s'[t].todo) {
      assert Ordered(s[t].held, s[t].todo);
    }
  }

  lemma {:induction false} RunInv(run: seq<State>, acts: seq<Act>, k: nat)
    requires IsRun(run, acts) && k < |run|
    ensures Inv(run[k])
  {
    if k > 0 {
      RunInv(run, acts, k - 1);
      hide Inv, Next;
      assert Next(run[k - 1], acts[k - 1], run[k - 1 + 1]);
      StepInv(run[k - 1], acts[k - 1], run[k]);
    }
  }

  /** In every reachable state, if a goroutine is inside a section, one inside a section can take its next
      step, and a goroutine that waits for a manageMutex holds nothing: waiting for a manageMutex never
      stands in the way of the other mutexes. */
  lemma NeverWedged(run: seq<State>, acts: seq<Act>, k: nat, t: nat) returns (u: nat)
    requires IsRun(run, acts) && k < |run| && t < |run[k]| && Inside(run[k][t])
    ensures CanStep(run[k], u) && Inside(run[k][u])
    ensures forall v :: 0 <= v < |run[k]| && !Inside(run[k][v]) ==> run[k][v].held == {}
  {
    RunInv(run, acts, k);
    hide IsRun;
    Outside(run[k]);
    u := Movable(run[k], t);
  }

  lemma Outside(s: State)
    requires Inv(s)
    ensures forall v :: 0 <= v < |s| && !Inside(s[v]) ==> s[v].held == {}
  {
    forall v | 0 <= v < |s| && !Inside(s[v]) ensures s[v].held == {} {
      assert Ordered(s[v].held, s[v].todo);
    }
  }

  /** A holder is never waited on by itself, and waits for higher ranks only. */
  lemma {:induction false} Movable(s: State, t: nat) returns (u: nat)
    requires Inv(s) && t < |s| && Inside(s[t])
    ensures CanStep(s, u) && Inside(s[u])
    decreases if Needed(s[t]).Some? then 2 - Rank(Needed(s[t]).value) else 0
  {
    if CanStep(s, t) {
      u := t;
    } else {
      var l := Needed(s[t]).value;
      var v: nat :| v < |s| && l in s[v].held;
      Outside(s);
      assert Ordered(s[v].held, s[v].todo);
      u := Movable(s, v);
    }
  }
}
