/** What `/status` reports agrees with itself in every reachable state. */
module StatusTheorems {
  import opened Model
  import opened Machine
  import opened Invariant
  import opened Operations
  import opened Steps
  import opened Ledger
  import opened Reachable
  import opened Manager
  import opened LedgerTheorems
  import opened Interference
  import opened Recency
  import opened Stages

  /** The sum of a usage table over the listed services. */
  function Total(usage: map<Service, int>, services: seq<Service>): int {
    if services == [] then 0
    else Total(usage, services[1..]) + if services[0] in usage then usage[services[0]] else 0
  }

  ghost predicate Distinct(services: seq<Service>) {
    forall i, j :: 0 <= i < j < |services| ==> services[i] != services[j]
  }

  /** What a service contributes to the ledger through one of the first `n` instances. */
  function Booked(m: Shared, n: nat, s: Service, r: Resource): int {
    if s in m.running && m.running[s] < n <= |m.instances| && m.instances[m.running[s]].committed
    then m.cfg.Need(s, r) else 0
  }

  function SumBooked(m: Shared, n: nat, services: seq<Service>, r: Resource): int {
    if services == [] then 0 else SumBooked(m, n, services[1..], r) + Booked(m, n, services[0], r)
  }

  lemma {:induction false} BookNobody(m: Shared, n: nat, services: seq<Service>, r: Resource)
    requires forall s :: s in services ==> Booked(m, n + 1, s, r) == Booked(m, n, s, r)
    ensures SumBooked(m, n + 1, services, r) == SumBooked(m, n, services, r)
  {
    if services != [] {
      BookNobody(m, n, services[1..], r);
    }
  }

  lemma {:induction false} BookOne(m: Shared, n: nat, services: seq<Service>, r: Resource, s: Service)
    requires Distinct(services) && s in services
    requires forall q :: q in services && q != s ==> Booked(m, n + 1, q, r) == Booked(m, n, q, r)
    ensures SumBooked(m, n + 1, services, r)
            == SumBooked(m, n, services, r) + Booked(m, n + 1, s, r) - Booked(m, n, s, r)
  {
    hide Booked;
    if services[0] == s {
      assert forall i :: 0 <= i < |services[1..]| ==> services[1..][i] == services[i + 1];
      BookNobody(m, n, services[1..], r);
    } else {
      BookOne(m, n, services[1..], r, s);
    }
  }

  /** Every registered service is listed, as the configured services are. */
  ghost predicate Listed(m: Shared, services: seq<Service>) {
    Distinct(services) && forall s :: s in m.cfg.requirements ==> s in services
  }

  /** The ledger as a sum over instances is the ledger as a sum over registered services. */
  lemma {:induction false} UseByService(m: Shared, n: nat, services: seq<Service>, r: Resource)
    requires RegistryOk(m) && Listed(m, services) && n <= |m.instances|
    ensures SumUse(m.cfg, m.instances[..n], r) == SumBooked(m, n, services, r)
  {
    if n == 0 {
      NothingBooked(m, services, r);
    } else {
      hide RegistryOk, Listed, SumUse, SumBooked;
      UseByService(m, n - 1, services, r);
      assert m.instances[..n][..n - 1] == m.instances[..n - 1];
      BookNext(m, n - 1, services, r);
    }
  }

  /** One instance more. */
  lemma BookNext(m: Shared, n: nat, services: seq<Service>, r: Resource)
    requires RegistryOk(m) && Listed(m, services) && n < |m.instances|
    ensures SumBooked(m, n + 1, services, r) == SumBooked(m, n, services, r) + Use(m.cfg, m.instances[n], r)
  {
    hide SumBooked, Listed;
    var x := m.instances[n];
    if x.released {
      BookNobody(m, n, services, r);
    } else {
      ListedOne(m, services, x.svc);
      BookOne(m, n, services, r, x.svc);
    }
  }

  lemma ListedOne(m: Shared, services: seq<Service>, s: Service)
    requires Listed(m, services) && RegistryOk(m) && s in m.running
    ensures Distinct(services) && s in services
  {
  }

  lemma {:induction false} NothingBooked(m: Shared, services: seq<Service>, r: Resource)
    ensures SumBooked(m, 0, services, r) == 0
  {
    if services != [] {
      NothingBooked(m, services[1..], r);
    }
  }

  /** A report lists what every registered service requires; only committed ones are booked. */
  lemma {:induction false} BookedWithinUsage(m: Shared, services: seq<Service>, some: seq<Service>, r: Resource)
    requires SharedOk(m) && forall s :: s in some ==> s in services
    ensures SumBooked(m, |m.instances|, some, r) <= Total(UsageBy(m, services, r), some)
    ensures (forall s :: s in some ==> !Pends(m, s)) ==>
              SumBooked(m, |m.instances|, some, r) == Total(UsageBy(m, services, r), some)
  {
    if some != [] {
      BookedWithinUsage(m, services, some[1..], r);
      hide SharedOk, SumBooked;
      BookedLine(m, services, some[0], r);
      assert SumBooked(m, |m.instances|, some, r)
             == SumBooked(m, |m.instances|, some[1..], r) + Booked(m, |m.instances|, some[0], r) by {
      }
    }
  }

  /** The registered instance of `s` still waits for resources. */
  predicate Pends(m: Shared, s: Service) {
    s in m.running && m.running[s] < |m.instances| && m.instances[m.running[s]].waiting
  }

  /** One service: what it has booked is at most what is shown, and all of it unless it waits. */
  lemma BookedLine(m: Shared, services: seq<Service>, s: Service, r: Resource)
    requires SharedOk(m) && s in services
    ensures var shown := if s in UsageBy(m, services, r) then UsageBy(m, services, r)[s] else 0;
            var booked := Booked(m, |m.instances|, s, r);
            booked <= shown && (!Pends(m, s) ==> booked == shown)
  {
    if s in m.running {
      Registered(m, s);
      InstanceFacts(m, m.running[s]);
      RequirementDeclared(m.cfg, s);
      assert r in m.cfg.Requirement(s) ==> m.cfg.Need(s, r) == m.cfg.Requirement(s)[r];
    }
  }

  // ---------------------------------------------------------------- the entries of a report

  /** The amount of the last measurement of `r` among the first `k` steps, or 0. */
  function Measurement(labels: seq<Label>, k: nat, r: Resource): int
    requires k <= |labels|
  {
    if k == 0 then 0
    else match labels[k - 1]
         case Env(Measure(q, amount)) => if q == r then amount else Measurement(labels, k - 1, r)
         case _ => Measurement(labels, k - 1, r)
  }

  lemma MeasureNow(s: State, l: Label, s': State, r: Resource)
    requires Next(s, l, s')
    ensures Get(s'.m.available, r)
            == if l.Env? && l.e.Measure? && l.e.r == r then l.e.amount else Get(s.m.available, r)
  {
    hide Step, Fill, Listeners;
    if !Monitors(l, r) {
      StepUnmonitored(s, l, s', r);
    }
  }

  /** The cached amount of a resource is what its CheckCommand measured last. */
  lemma {:induction false} AvailableIsMeasured(run: seq<State>, labels: seq<Label>, k: nat, r: Resource)
    requires IsRun(run, labels) && k < |run|
    ensures Get(run[k].m.available, r) == Measurement(labels, k, r)
  {
    hide Next;
    if k > 0 {
      assert Next(run[k - 1], labels[k - 1], run[k - 1 + 1]);
      MeasureNow(run[k - 1], labels[k - 1], run[k], r);
      AvailableIsMeasured(run, labels, k - 1, r);
    }
  }

  /** The entry of a service: `j` is where the connection counters were read, `k` where the rest was. */
  lemma ServiceReported(run: seq<State>, labels: seq<Label>, j: nat, k: nat, stats: map<Service, Stats>, q: Service)
    requires IsRun(run, labels) && j <= k < |run| && q in stats && stats[q] == StatsOf(run[j].m, q)
    ensures var m := run[k].m;
            && (q in m.running ==> m.running[q] < |m.instances|)
            && var x := StatusOf(m, stats, q);
               && x.name == q && x.requirements == m.cfg.Requirement(q)
               && x.waiting == |WaitingFor(q, run[j].threads)| && x.proxied == |ProxiedTo(q, run[j].threads)|
               && (x.state == Stopped <==> q !in m.running)
               && (x.state == Running <==> q in m.running && Passed(run, labels, k, m.running[q], Ready))
               && (x.state == WaitingForResources
                   <==> q in m.running && !Passed(run, labels, k, m.running[q], Confirm))
               && (x.lastUsed.Some? <==> q in m.running)
               && (x.lastUsed.Some? ==> UsedAt(run, labels, k, q, x.lastUsed.value))
  {
    ConnectionsCounted(run, labels, j, q);
    if q in run[k].m.running {
      RegisteredStages(run, labels, k, q);
    }
  }

  lemma RegisteredStages(run: seq<State>, labels: seq<Label>, k: nat, q: Service)
    requires IsRun(run, labels) && k < |run| && q in run[k].m.running
    ensures run[k].m.running[q] < |run[k].m.instances|
    ensures var x, i := run[k].m.instances[run[k].m.running[q]], run[k].m.running[q];
            && (x.ready <==> Passed(run, labels, k, i, Ready)) && (x.waiting <==> !Passed(run, labels, k, i, Confirm))
            && (x.ready ==> !x.waiting) && UsedAt(run, labels, k, q, x.lastUsed)
  {
    assert run[k].m.running[q] < |run[k].m.instances|
           && (run[k].m.instances[run[k].m.running[q]].ready ==> !run[k].m.instances[run[k].m.running[q]].waiting) by {
      RunInv(run, labels, k);
      Registered(run[k].m, q);
      InstanceFacts(run[k].m, run[k].m.running[q]);
    }
    hide *;
    StageIsHistory(run, labels, k, run[k].m.running[q]);
    UsedAtIs(run, labels, k, q, run[k].m.instances[run[k].m.running[q]].lastUsed);
  }

  /** The entry of a resource: what is committed, what unfinished starts owe, and what is left of its amount or was
      measured last. The registered ones of the listed services that require it are named, with what they require. */
  lemma ResourceReported(run: seq<State>, labels: seq<Label>, k: nat, services: seq<Service>, r: Resource)
    requires IsRun(run, labels) && k < |run|
    ensures var m, u := run[k].m, UsageOf(run[k].m, services, r);
            && u.total == Get(m.cfg.amount, r) && u.reserved == Sum(Owed(m.cfg, r), run[k].threads)
            && u.inUse == SumUse(m.cfg, m.instances, r)
            && u.free == (if r in m.cfg.check then Measurement(labels, k, r)
                          else Get(m.cfg.amount, r) - SumUse(m.cfg, m.instances, r))
            && (forall q :: q in u.usage <==> q in services && q in m.running && r in m.cfg.Requirement(q))
            && forall q :: q in u.usage ==> u.usage[q] == m.cfg.Need(q, r)
  {
    InUseConserved(run, labels, k, r);
    ReservedConserved(run, labels, k, r);
    AvailableIsMeasured(run, labels, k, r);
    hide IsRun, SumUse, Sum, Measurement;
  }

  /** Every snapshot `/status` takes: a static resource's free amount is what is not in use and is
      never negative, the amount in use is at most what the listed services require together, and
      exactly that when none of them still waits for its reservation to be confirmed. */
  lemma StatusAgrees(run: seq<State>, labels: seq<Label>, k: nat, services: seq<Service>, r: Resource)
    requires IsRun(run, labels) && k < |run|
    requires Listed(run[k].m, services) && r !in run[k].m.cfg.check
    ensures var u := UsageOf(run[k].m, services, r);
            && u.free == u.total - u.inUse && 0 <= u.free && 0 <= u.inUse
            && u.inUse <= Total(u.usage, services)
            && ((forall s :: s in services && s in run[k].m.running ==>
                   Passed(run, labels, k, run[k].m.running[s], Confirm)) ==>
                  u.inUse == Total(u.usage, services))
  {
    var m := run[k].m;
    RunInv(run, labels, k);
    assert SharedOk(m) && RegistryOk(m) && Get(m.inUse, r) == SumUse(m.cfg, m.instances, r)
           && (r !in m.cfg.check ==> 0 <= Get(m.inUse, r) <= Get(m.cfg.amount, r)) by {
      SumUseNonnegative(m.cfg, m.instances, r);
    }
    hide *;
    forall s | s in services && s in m.running && Passed(run, labels, k, m.running[s], Confirm) ensures !Pends(m, s) {
      assert !Pends(run[k].m, s) by {
        hide IsRun, Passed, UsedAt;
        RegisteredStages(run, labels, k, s);
      }
    }
    UseByService(m, |m.instances|, services, r);
    assert m.instances[..|m.instances|] == m.instances;
    BookedWithinUsage(m, services, services, r);
  }
}
