/** The least-recently-used order, and what it means to evict its shortest sufficient prefix. */
module Eviction {
  import opened Model

  /** `s` requires one resource, and no CheckCommand measures it. */
  ghost predicate OneStatic(m: Shared, s: Service, r: Resource) {
    m.cfg.Requirement(s).Keys == {r} && r !in m.cfg.check
  }

  /** Every registered service but `s` was last used before `now`. */
  ghost predicate UsedBefore(m: Shared, s: Service, now: int) {
    forall v :: v in m.running && v != s ==> m.running[v] < |m.instances| && LastUsed(m, v) < now
  }

  /** `order` lists every service that may be evicted for `s`, the least recently used first. */
  ghost predicate IsOrder(m: Shared, s: Service, r: Resource, now: int, order: seq<Service>) {
    && (forall v :: v in order <==> Eligible(m, s, r, now, v))
    && forall i, j :: 0 <= i < j < |order| ==> Older(m, order[i], order[j])
  }

  predicate Older(m: Shared, v: Service, w: Service) {
    && v in m.running && m.running[v] < |m.instances| && w in m.running && m.running[w] < |m.instances|
    && LastUsed(m, v) < LastUsed(m, w)
  }

  /** The amount of `r` that the services hold together. */
  function Freed(c: Config, vs: seq<Service>, r: Resource): int {
    if vs == [] then 0 else Freed(c, vs[..|vs| - 1], r) + c.Need(vs[|vs| - 1], r)
  }

  /** `s` can start once the services are gone. */
  predicate Fits(m: Shared, s: Service, r: Resource, vs: seq<Service>) {
    m.cfg.Need(s, r) <= Get(m.cfg.amount, r) - (Get(m.inUse, r) - Freed(m.cfg, vs, r))
  }

  /** The evictions are the shortest prefix of the order that frees enough, or all of it. */
  ghost predicate ShortestPrefix(m: Shared, s: Service, r: Resource, now: int, vs: seq<Service>, ok: bool) {
    forall order :: IsOrder(m, s, r, now, order) ==>
      && |vs| <= |order| && vs == order[..|vs|]
      && (forall j :: 0 <= j < |vs| ==> !Fits(m, s, r, order[..j]))
      && if ok then Fits(m, s, r, order[..|vs|]) else |vs| == |order| && !Fits(m, s, r, order)
  }

  // ---------------------------------------------------------------- picking one after the other

  /** Each service was least recently used among those eligible and not yet picked. */
  ghost predicate Picks(m: Shared, s: Service, r: Resource, now: int, vs: seq<Service>) {
    forall j :: 0 <= j < |vs| ==>
      && Eligible(m, s, r, now, vs[j]) && vs[j] !in vs[..j]
      && forall w :: Eligible(m, s, r, now, w) && w !in vs[..j] ==> LastUsed(m, vs[j]) <= LastUsed(m, w)
  }

  lemma {:induction false} PicksArePrefix(m: Shared, s: Service, r: Resource, now: int, vs: seq<Service>,
                                          order: seq<Service>)
    requires Picks(m, s, r, now, vs) && IsOrder(m, s, r, now, order)
    ensures |vs| <= |order| && vs == order[..|vs|]
  {
    if vs == [] {
    } else {
      var n := |vs| - 1;
      PicksShorter(m, s, r, now, vs);
      PicksArePrefix(m, s, r, now, vs[..n], order);
      NextInOrder(m, s, r, now, order, n, vs[n]);
    }
  }

  lemma PicksShorter(m: Shared, s: Service, r: Resource, now: int, vs: seq<Service>)
    requires Picks(m, s, r, now, vs) && vs != []
    ensures Picks(m, s, r, now, vs[..|vs| - 1])
  {
    var us := vs[..|vs| - 1];
    forall j | 0 <= j < |us|
      ensures Eligible(m, s, r, now, us[j]) && us[j] !in us[..j]
      ensures forall w :: Eligible(m, s, r, now, w) && w !in us[..j] ==> LastUsed(m, us[j]) <= LastUsed(m, w)
    {
      assert us[j] == vs[j] && us[..j] == vs[..j];
    }
  }

  lemma NoRepeat(m: Shared, s: Service, r: Resource, now: int, order: seq<Service>, n: nat)
    requires IsOrder(m, s, r, now, order) && n < |order|
    ensures order[n] !in order[..n]
  {
    forall q | 0 <= q < n ensures order[q] != order[n] {
      assert Older(m, order[q], order[n]);
    }
  }

  /** The least recently used service outside the first `n` of the order is the next in it. */
  lemma NextInOrder(m: Shared, s: Service, r: Resource, now: int, order: seq<Service>, n: nat, x: Service)
    requires IsOrder(m, s, r, now, order) && n <= |order|
    requires Eligible(m, s, r, now, x) && x !in order[..n]
    requires forall w :: Eligible(m, s, r, now, w) && w !in order[..n] ==> LastUsed(m, x) <= LastUsed(m, w)
    ensures n < |order| && x == order[n]
  {
    assert x in order;
    var p :| 0 <= p < |order| && order[p] == x;
    assert forall q :: 0 <= q < n ==> order[..n][q] == order[q];
    assert n <= p;
    NoRepeat(m, s, r, now, order, n);
    assert order[n] in order;
    assert n < p ==> Older(m, order[n], order[p]);
  }

  /** The order exists when no two eligible services were used at the same time. */
  lemma OrderExists(m: Shared, s: Service, r: Resource, now: int) returns (order: seq<Service>)
    requires forall v, w :: Eligible(m, s, r, now, v) && Eligible(m, s, r, now, w) && v != w ==>
               LastUsed(m, v) != LastUsed(m, w)
    ensures IsOrder(m, s, r, now, order)
  {
    var all := set v | v in m.running && Eligible(m, s, r, now, v);
    assert forall v :: Eligible(m, s, r, now, v) ==> v in m.running;
    order := Sorted(m, all);
  }

  ghost predicate AllDistinct(m: Shared, some: set<Service>) {
    && (forall v :: v in some ==> v in m.running && m.running[v] < |m.instances|)
    && forall v, w :: v in some && w in some && v != w ==> Older(m, v, w) || Older(m, w, v)
  }

  lemma {:induction false} Sorted(m: Shared, some: set<Service>) returns (order: seq<Service>)
    requires AllDistinct(m, some)
    ensures forall v :: v in order <==> v in some
    ensures forall i, j :: 0 <= i < j < |order| ==> Older(m, order[i], order[j])
    decreases some
  {
    if some == {} {
      order := [];
    } else {
      var last := MostRecent(m, some);
      var rest := Sorted(m, some - {last});
      order := rest + [last];
      hide Older;
      assert forall i :: 0 <= i < |rest| ==> rest[i] in rest;
    }
  }

  lemma {:induction false} MostRecent(m: Shared, some: set<Service>) returns (last: Service)
    requires some != {} && AllDistinct(m, some)
    ensures last in some && forall v :: v in some && v != last ==> Older(m, v, last)
    decreases some
  {
    var v :| v in some;
    var rest := some - {v};
    if rest == {} {
      assert some == {v};
      last := v;
    } else {
      var other := MostRecent(m, rest);
      assert Older(m, other, v) || Older(m, v, other);
      last := if Older(m, other, v) then v else other;
      assert forall w :: w in some && w != v ==> w in rest;
    }
  }

  // ---------------------------------------------------------------- the state after some evictions

  /** `m` is what stopping `vs` in `m0` leaves of the facts that eviction decides on. */
  ghost predicate Thinned(m0: Shared, m: Shared, s: Service, vs: seq<Service>) {
    && m.cfg == m0.cfg && m.stats == m0.stats && |m.instances| == |m0.instances|
    && m.running == m0.running - (set v | v in vs)
    && (forall v :: v in m.running && v != s && m.running[v] < |m.instances| ==>
          m.instances[m.running[v]] == m0.instances[m.running[v]])
    && forall r :: Get(m.inUse, r) == Get(m0.inUse, r) - Freed(m0.cfg, vs, r)
  }

  lemma StillEligible(m0: Shared, m: Shared, s: Service, vs: seq<Service>, r: Resource, now: int, v: Service)
    requires Thinned(m0, m, s, vs)
    ensures Eligible(m, s, r, now, v) <==> Eligible(m0, s, r, now, v) && v !in vs
    ensures Eligible(m, s, r, now, v) ==> LastUsed(m, v) == LastUsed(m0, v)
  {
  }

  lemma StillShort(m0: Shared, m: Shared, s: Service, vs: seq<Service>, r: Resource)
    requires Thinned(m0, m, s, vs)
    ensures StaticShort(m, s, r) <==> r in m0.cfg.Requirement(s) && r !in m0.cfg.check && !Fits(m0, s, r, vs)
  {
  }

  /** Every required resource without a CheckCommand suffices once `vs` are gone. */
  ghost predicate AllFit(m: Shared, s: Service, vs: seq<Service>) {
    forall r :: r in m.cfg.Requirement(s) && r !in m.cfg.check ==> Fits(m, s, r, vs)
  }

  lemma StillEnough(m0: Shared, m: Shared, s: Service, vs: seq<Service>)
    requires Thinned(m0, m, s, vs)
    ensures StaticEnough(m, s) <==> AllFit(m0, s, vs)
  {
    hide Thinned, Fits, StaticShort;
    forall r
      ensures StaticShort(m, s, r) <==> r in m0.cfg.Requirement(s) && r !in m0.cfg.check && !Fits(m0, s, r, vs)
    {
      StillShort(m0, m, s, vs, r);
    }
  }

  /** With what was picked, and what was short on the way, the evictions are the shortest prefix. */
  lemma PrefixIsShortest(m0: Shared, s: Service, r: Resource, start: int, vs: seq<Service>, ok: bool)
    requires Picks(m0, s, r, start, vs) && forall j :: 0 <= j < |vs| ==> !Fits(m0, s, r, vs[..j])
    requires if ok then Fits(m0, s, r, vs)
             else !Fits(m0, s, r, vs) && forall v :: Eligible(m0, s, r, start, v) ==> v in vs
    ensures ShortestPrefix(m0, s, r, start, vs, ok)
  {
    hide Eligible, Fits, Picks;
    forall order | IsOrder(m0, s, r, start, order)
      ensures |vs| <= |order| && vs == order[..|vs|]
      ensures forall j :: 0 <= j < |vs| ==> !Fits(m0, s, r, order[..j])
      ensures if ok then Fits(m0, s, r, order[..|vs|]) else |vs| == |order| && !Fits(m0, s, r, order)
    {
      PicksArePrefix(m0, s, r, start, vs, order);
      forall j | 0 <= j < |vs| ensures !Fits(m0, s, r, order[..j]) {
        assert order[..j] == vs[..j];
      }
      if !ok {
        assert |vs| == |order| by {
          hide Eligible;
          if |vs| < |order| {
            NoRepeat(m0, s, r, start, order, |vs|);
          }
        }
        assert order[..|vs|] == order;
      }
    }
  }
}
