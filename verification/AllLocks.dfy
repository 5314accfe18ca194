/** The manageMutexes and the other mutexes together. */
module AllLocks {
  import opened Model
  import M = Machine
  import I = Invariant
  import R = Reachable
  import D = Deadlock
  import L = LockOrder

  /** The goroutines of `s` are inside critical sections as `locks` says: one that waits for a manageMutex
      there is at that point of the program. */
  ghost predicate Joint(s: M.State, locks: L.State) {
    && |locks| == |s.threads|
    && forall t :: 0 <= t < |locks| && Waits(locks[t]).Some? ==> D.Target(s.threads[t]) == Waits(locks[t])
  }

  /** The manageMutex that is the next thing a goroutine takes. */
  function Waits(g: L.Goroutine): Option<nat> {
    if g.todo != [] && g.todo[0].Wait? then Some(g.todo[0].i) else None
  }

  /** Goroutine `u` can go on: with its next operation on a mutex or, outside all sections, with a step. */
  ghost predicate GoesOn(s: M.State, locks: L.State, u: nat) {
    && u < |locks| && |locks| == |s.threads|
    && if locks[u].todo == [] then D.CanMove(s, u) && !D.Blocked(s, u)
       else L.CanStep(locks, u) && (Waits(locks[u]).Some? ==> Free(s, Waits(locks[u]).value))
  }

  ghost predicate Free(s: M.State, i: nat) {
    i < |s.m.instances| && s.m.instances[i].holder.None?
  }

  /** The program is never wedged: whenever a goroutine waits for any mutex, or is inside a section, some
      goroutine can go on. */
  lemma NeverWedged(run: seq<M.State>, labels: seq<M.Label>, k: nat, locks: seq<L.State>, acts: seq<L.Act>, j: nat,
                    t: nat)
    returns (u: nat)
    requires M.IsRun(run, labels) && k < |run| && L.IsRun(locks, acts) && j < |locks| && Joint(run[k], locks[j])
    requires t < |locks[j]| && (locks[j][t].todo != [] || D.Blocked(run[k], t))
    ensures GoesOn(run[k], locks[j], u)
  {
    hide M.IsRun, L.IsRun, D.Blocked, D.CanMove, R.Inv, L.Inv, Free;
    R.RunInv(run, labels, k);
    L.RunInv(locks, acts, j);
    if v: nat :| v < |locks[j]| && L.Inside(locks[j][v]) {
      u := L.NeverWedged(locks, acts, j, v);
    } else {
      u := t;
      if D.Blocked(run[k], t) {
        u := Behind(run, labels, k, t);
      }
      OnlyManage(run[k], locks[j], u);
    }
  }

  /** The goroutine at the end of the chain of waits. */
  lemma Behind(run: seq<M.State>, labels: seq<M.Label>, k: nat, t: nat) returns (u: nat)
    requires M.IsRun(run, labels) && k < |run| && D.Blocked(run[k], t)
    ensures D.CanMove(run[k], u) && !D.Blocked(run[k], u)
  {
    D.NeverWedged(run, labels, k, t);
    hide M.IsRun, D.Blocked, D.CanMove;
    var path :| D.Chain(run[k], path) && D.CanMove(run[k], path[|path| - 1]) && !D.Blocked(run[k], path[|path| - 1]);
    u := path[|path| - 1];
  }

  /** When nobody is inside a section, a goroutine that no manageMutex blocks can go on. */
  lemma OnlyManage(s: M.State, locks: L.State, u: nat)
    requires R.Inv(s) && L.Inv(locks) && Joint(s, locks) && forall v :: 0 <= v < |locks| ==> !L.Inside(locks[v])
    requires !D.Blocked(s, u) && (D.CanMove(s, u) || (u < |locks| && locks[u].todo != []))
    ensures GoesOn(s, locks, u)
  {
    L.Outside(locks);
    assert u < |s.threads|;
    hide R.Inv, L.Inv, D.Blocked, D.CanMove, Free;
    if locks[u].todo != [] {
      NotBlocked(s, u, Waits(locks[u]).value);
    }
  }

  lemma NotBlocked(s: M.State, t: nat, i: nat)
    requires R.Inv(s) && t < |s.threads| && D.Target(s.threads[t]) == Some(i) && !D.Blocked(s, t)
    ensures Free(s, i)
  {
    assert I.ThreadOk(s.m, t, s.threads[t]);
    assert i < |s.m.instances|;
    if u: nat :| s.m.instances[i].holder == Some(u) {
      assert D.WaitsFor(s, t, u);
    }
  }
}
