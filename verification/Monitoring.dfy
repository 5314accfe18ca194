/** One run of a resource monitor. Caching the measurement and broadcasting it are two critical sections,
    and the other goroutines move before each of them. */
module Monitoring {
  import opened Model
  import opened Machine
  import opened Manager
  import opened Scheduling

  /** The CheckCommand printed `output`, or failed, or printed no number. `cached` is the state the amount
      was compared with, `told` the one that was broadcast to. */
  method CheckResourceAvailability(rm: ResourceManager, r: Resource, output: Option<int>, ghost alone: bool)
    returns (hadListeners: bool, ghost cached: Shared, ghost told: Shared)
    requires rm.Valid() && r in rm.resourcesAvailable
    modifies rm
    ensures rm.Valid() && Unmonitored(old(rm.Value()), cached, r)
    ensures match output
            case None => rm.Value() == told == cached
            case Some(amount) =>
              && Unmonitored(Measured(cached, r, amount), told, r)
              && r in told.publishing && told.publishing[r] == (old(rm.resourcesAvailable[r]) != amount)
              && rm.Value() == Published(told, r) && rm.resourcesAvailable[r] == amount
    ensures hadListeners <==> exists s :: Entry(told.change, r, s).Some? || Entry(told.first, r, s).Some?
    ensures alone ==> cached == old(rm.Value())
    ensures alone && output.Some? ==> rm.Value() == Published(Measured(old(rm.Value()), r, output.value), r)
  {
    Goroutines(rm, r, alone);
    cached := rm.Value();
    if output.None? {
      told := cached;
      hadListeners := rm.ResourceHasWaiters(r);
      return;
    }
    var amountChanged := rm.CacheAmount(r, output.value);
    Goroutines(rm, r, alone);
    told := rm.Value();
    hadListeners := rm.BroadcastAmount(r, amountChanged);
  }
}
