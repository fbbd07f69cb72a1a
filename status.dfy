/**
 * The shared `Status` of src/service/service.rs together with the `State` wrapper of
 * src/service/state.rs: the counters the statistics callbacks store, and the number of
 * times watchers have been woken (`State::notify`).
 */
module ServiceStatus {
  import opened Wrappers
  import opened Json
  import opened ClashApi

  /** The six statistics counters, as one value. */
  datatype Counters = Counters(
    memoryUsage: u64, connectionCount: nat,
    uploadTraffic: u64, downloadTraffic: u64,
    uploadSpeed: u64, downloadSpeed: u64)

  const Zero := Counters(0, 0, 0, 0, 0, 0)

  /** What the traffic callback stores: the number of open connections, 0 when absent. */
  function ConnectionCount(connections: Option<seq<Json>>): (n: nat)
    ensures connections.Some? ==> n == |connections.value|
    ensures connections.None? ==> n == 0
  {
    match connections
    case Some(c) => |c|
    case None => 0
  }

  /** The counters after one traffic record: connections and totals replaced, the rest kept. */
  function AfterTraffic(c: Counters, data: TrafficResult): Counters {
    c.(connectionCount := ConnectionCount(data.connections),
       uploadTraffic := data.uploadTotal, downloadTraffic := data.downloadTotal)
  }

  function AfterSpeed(c: Counters, data: SpeedResult): Counters {
    c.(uploadSpeed := data.up, downloadSpeed := data.down)
  }

  function AfterMemory(c: Counters, data: MemoryResult): Counters {
    c.(memoryUsage := data.inuse)
  }

  /**
   * The three callbacks write disjoint counters, so the order in which the three
   * subscriptions deliver their records does not matter.
   */
  lemma CallbacksCommute(c: Counters, t: TrafficResult, s: SpeedResult, m: MemoryResult)
    ensures AfterSpeed(AfterTraffic(c, t), s) == AfterTraffic(AfterSpeed(c, s), t)
    ensures AfterMemory(AfterTraffic(c, t), m) == AfterTraffic(AfterMemory(c, m), t)
    ensures AfterMemory(AfterSpeed(c, s), m) == AfterSpeed(AfterMemory(c, m), s)
  {
  }

  /** Each callback is last-writer-wins: a second record overwrites the first entirely. */
  lemma CallbacksOverwrite(c: Counters, t1: TrafficResult, t2: TrafficResult, s1: SpeedResult,
                           s2: SpeedResult, m1: MemoryResult, m2: MemoryResult)
    ensures AfterTraffic(AfterTraffic(c, t1), t2) == AfterTraffic(c, t2)
    ensures AfterSpeed(AfterSpeed(c, s1), s2) == AfterSpeed(c, s2)
    ensures AfterMemory(AfterMemory(c, m1), m2) == AfterMemory(c, m2)
  {
  }

  class Status {
    var isRunning: bool
    var runningConfig: string
    var coreVersion: string
    var counters: Counters
    /** How many times `State::notify` woke the status watchers. */
    var notifications: nat

    /** `Status::default()` inside a fresh `State`. */
    constructor ()
      ensures !isRunning && runningConfig == [] && coreVersion == []
      ensures counters == Zero && notifications == 0
    {
      isRunning := false;
      runningConfig := [];
      coreVersion := [];
      counters := Zero;
      notifications := 0;
    }

    /** `State::notify`. */
    method Notify()
      modifies this
      ensures notifications == old(notifications) + 1
      ensures isRunning == old(isRunning) && runningConfig == old(runningConfig)
      ensures coreVersion == old(coreVersion) && counters == old(counters)
    {
      notifications := notifications + 1;
    }

    /** `Status::clean_data`: zero the six counters; flags, texts and watchers untouched. */
    method CleanData()
      modifies this
      ensures counters == Zero
      ensures isRunning == old(isRunning) && runningConfig == old(runningConfig)
      ensures coreVersion == old(coreVersion) && notifications == old(notifications)
    {
      counters := Zero;
    }

    method SetRunning(b: bool)
      modifies this
      ensures isRunning == b
      ensures runningConfig == old(runningConfig) && coreVersion == old(coreVersion)
      ensures counters == old(counters) && notifications == old(notifications)
    {
      isRunning := b;
    }

    method SetRunningConfig(tag: string)
      modifies this
      ensures runningConfig == tag
      ensures isRunning == old(isRunning) && coreVersion == old(coreVersion)
      ensures counters == old(counters) && notifications == old(notifications)
    {
      runningConfig := tag;
    }

    method SetCoreVersion(v: string)
      modifies this
      ensures coreVersion == v
      ensures isRunning == old(isRunning) && runningConfig == old(runningConfig)
      ensures counters == old(counters) && notifications == old(notifications)
    {
      coreVersion := v;
    }

    /** The traffic callback: store connections and totals, then notify. */
    method OnTraffic(data: TrafficResult)
      modifies this
      ensures counters == AfterTraffic(old(counters), data)
      ensures notifications == old(notifications) + 1
      ensures isRunning == old(isRunning) && runningConfig == old(runningConfig)
      ensures coreVersion == old(coreVersion)
    {
      counters := counters.(connectionCount := ConnectionCount(data.connections));
      counters := counters.(uploadTraffic := data.uploadTotal);
      counters := counters.(downloadTraffic := data.downloadTotal);
      Notify();
    }

    /** The speed callback: store both rates, then notify. */
    method OnSpeed(data: SpeedResult)
      modifies this
      ensures counters == AfterSpeed(old(counters), data)
      ensures notifications == old(notifications) + 1
      ensures isRunning == old(isRunning) && runningConfig == old(runningConfig)
      ensures coreVersion == old(coreVersion)
    {
      counters := counters.(uploadSpeed := data.up);
      counters := counters.(downloadSpeed := data.down);
      Notify();
    }

    /** The memory callback: store the in-use figure, then notify. */
    method OnMemory(data: MemoryResult)
      modifies this
      ensures counters == AfterMemory(old(counters), data)
      ensures notifications == old(notifications) + 1
      ensures isRunning == old(isRunning) && runningConfig == old(runningConfig)
      ensures coreVersion == old(coreVersion)
    {
      counters := counters.(memoryUsage := data.inuse);
      Notify();
    }
  }
}
