/**
 * `Service` (src/service/service.rs) and its error type (src/service/error.rs): the slot
 * holding at most one running instance, filled by `restart_service` and emptied by
 * `stop_service`, with the shared status and the log backlog of size 16.
 *
 * The database answers (`get_core_path`, `get_active_config`, `get_auto_start`) and what
 * the running instance's child task has seen when it is told to stop are parameters.
 */
module Supervisor {
  import opened Wrappers
  import opened Json
  import opened Strings
  import DbErrors
  import opened ConfigTable
  import opened ServiceStatus
  import opened LogQueue
  import opened FsModel
  import opened HookScript
  import opened ServiceLaunch
  import opened ChildHandle

  /** `service::Error`. */
  datatype ServiceError =
    | ConfigNotSet
    | GetConfigFailed(detail: string)
    | CorePathNotSet
    | GetCorePathFailed(detail: string)
    | StartServiceFailed(detail: string)

  /** The Display text of `service::Error` (its Debug text is the same). */
  function Describe(e: ServiceError): string {
    match e
    case ConfigNotSet => "config is not set"
    case GetConfigFailed(s) => "get config failed: " + s
    case CorePathNotSet => "core path is not set"
    case GetCorePathFailed(s) => "get core path failed: " + s
    case StartServiceFailed(s) => "start service failed: " + s
  }

  /** A start failure can be read back from its text. */
  lemma StartFailureReadable(e1: ServiceError, e2: ServiceError)
    requires e1.StartServiceFailed? && e2.StartServiceFailed? && Describe(e1) == Describe(e2)
    ensures e1 == e2
  {
    var p := "start service failed: ";
    assert Describe(e1)[|p|..] == e1.detail;
    assert Describe(e2)[|p|..] == e2.detail;
  }

  /** The database answers the service reads; a database error is carried by its Display text. */
  type Lookup<T> = Result<Option<T>, DbErrors.Error>

  /** The table invariant the start relies on (`check_config` has `unreachable!()` otherwise): stored documents are objects. */
  predicate StoredObject(active: Lookup<Config>) {
    active.Success? && active.value.Some? ==> active.value.value.config.Object?
  }

  /**
   * `get_start_prepare_info`: the core path is read first, then the active configuration;
   * a missing value and a failed read are told apart.
   */
  function PrepareInfo(corePath: Lookup<string>, active: Lookup<Config>): (r: Result<(string, Config), ServiceError>)
    ensures corePath.Failure? ==> r == Failure(GetCorePathFailed(DbErrors.Display(corePath.error)))
    ensures corePath == Success(None) ==> r == Failure(CorePathNotSet)
    ensures corePath.Success? && corePath.value.Some? ==>
      && (active.Failure? ==> r == Failure(GetConfigFailed(DbErrors.Display(active.error))))
      && (active == Success(None) ==> r == Failure(ConfigNotSet))
      && (active.Success? && active.value.Some? ==> r == Success((corePath.value.value, active.value.value)))
  {
    match corePath
    case Failure(e) => Failure(GetCorePathFailed(DbErrors.Display(e)))
    case Success(None) => Failure(CorePathNotSet)
    case Success(Some(p)) =>
      match active
      case Failure(e) => Failure(GetConfigFailed(DbErrors.Display(e)))
      case Success(None) => Failure(ConfigNotSet)
      case Success(Some(c)) => Success((p, c))
  }

  /**
   * `restart_service` after the old instance (if any) is stopped: preparation errors and
   * start errors alike come back as `StartServiceFailed` with the inner error's text.
   */
  function RestartSpec(corePath: Lookup<string>, active: Lookup<Config>, env: LaunchEnv): (r: Result<Instance, ServiceError>)
    requires StoredObject(active)
    ensures r.Failure? ==> r.error.StartServiceFailed?
  {
    match PrepareInfo(corePath, active)
    case Failure(e) => Failure(StartServiceFailed(Describe(e)))
    case Success((_, c)) =>
      match LaunchSpec(c, env).result
      case Failure(m) => Failure(StartServiceFailed(m))
      case Success(inst) => Success(inst)
  }

  /** A missing core path is reported before anything about the configuration is looked at. */
  lemma CorePathBeforeConfig(active: Lookup<Config>, env: LaunchEnv)
    requires StoredObject(active)
    ensures RestartSpec(Success(None), active, env) == Failure(StartServiceFailed("core path is not set"))
  {
  }

  lemma ConfigNotSetReported(path: string, env: LaunchEnv)
    ensures RestartSpec(Success(Some(path)), Success(None), env) == Failure(StartServiceFailed("config is not set"))
  {
  }

  /** A restart succeeds exactly when preparation and every start stage do, and the instance is the started one. */
  lemma RestartSucceeds(corePath: Lookup<string>, active: Lookup<Config>, env: LaunchEnv)
    requires StoredObject(active)
    ensures RestartSpec(corePath, active, env).Success? <==>
      && corePath.Success? && corePath.value.Some? && active.Success? && active.value.Some?
      && LaunchSpec(active.value.value, env).result.Success?
    ensures RestartSpec(corePath, active, env).Success? ==>
      RestartSpec(corePath, active, env).value == LaunchSpec(active.value.value, env).result.value
  {
  }

  /** What the running instance's child task has met when it is cancelled. */
  datatype PumpRun = PumpRun(platform: Platform, events: seq<Event>, stop: StopOutcome, startTime: string, closeTime: string)

  /** The events the child task handles when cancelled: what it had seen, then the cancellation. */
  function Cancelling(run: PumpRun): seq<Event> {
    run.events + [Cancelled(run.stop)]
  }

  /** Once cancelled, the child task always ends: by the cancellation or by an earlier exit. */
  lemma {:induction false} CancelEnds(events: seq<Event>, o: StopOutcome)
    ensures FirstTerminal(events + [Cancelled(o)]) <= |events|
    decreases |events|
  {
    if events != [] && !IsTerminal(events[0]) {
      assert (events + [Cancelled(o)])[1..] == events[1..] + [Cancelled(o)];
      CancelEnds(events[1..], o);
    }
  }

  /** The trace of the child task once it has been cancelled. */
  function StoppedTrace(run: PumpRun): seq<Effect> {
    Trace(run.platform, Cancelling(run), run.startTime, run.closeTime).0
  }

  /** The lines a trace pushes into the log queue, in order. */
  function PushedLines(t: seq<Effect>): seq<string> {
    if t == [] then []
    else PushedLines(t[..|t| - 1]) + (if t[|t| - 1].Push? then [EntryText(t[|t| - 1].entry)] else [])
  }

  lemma {:induction false} PushedLinesAppend(a: seq<Effect>, b: seq<Effect>)
    ensures PushedLines(a + b) == PushedLines(a) + PushedLines(b)
    decreases |b|
  {
    if b == [] {
      assert a + b == a;
    } else {
      var b' := b[..|b| - 1];
      assert (a + b)[..|a + b| - 1] == a + b';
      PushedLinesAppend(a, b');
    }
  }

  /** The wake-ups and the log lines of stopping a running instance: its task's, then `clean_data`'s notify. */
  function StopWakeups(run: PumpRun): nat {
    multiset(StoppedTrace(run))[NotifyStatus] + 1
  }

  function StopLines(run: PumpRun): seq<string> {
    PushedLines(StoppedTrace(run))
  }

  /**
   * A stopped instance leaves its whole life in the log: "service is started" first and
   * "service is closed" last, with its output lines in between.
   */
  lemma StoppedLogsFrame(run: PumpRun)
    ensures var lines := StopLines(run);
      |lines| >= 2 && lines[0] == EntryText(ServiceStarted(run.startTime))
      && lines[|lines| - 1] == EntryText(ServiceClosed(run.closeTime))
  {
    var events := Cancelling(run);
    CancelEnds(run.events, run.stop);
    var k := FirstTerminal(events);
    TraceEnded(run.platform, events, run.startTime, run.closeTime);
    var mid := Body(events[..k]) + TerminalEffects(run.platform, events[k]);
    assert StoppedTrace(run) == Prologue(run.startTime) + mid + Epilogue(run.closeTime);
    FramedLines(run.startTime, mid, run.closeTime);
  }

  /** The lines of a trace between the task's prologue and epilogue. */
  lemma FramedLines(startTime: string, mid: seq<Effect>, closeTime: string)
    ensures PushedLines(Prologue(startTime) + mid + Epilogue(closeTime))
         == [EntryText(ServiceStarted(startTime))] + PushedLines(mid) + [EntryText(ServiceClosed(closeTime))]
  {
    PushedLinesAppend(Prologue(startTime) + mid, Epilogue(closeTime));
    PushedLinesAppend(Prologue(startTime), mid);
    PrologueLines(startTime);
    EpilogueLines(closeTime);
  }

  lemma PushedLinesOne(e: Effect)
    ensures PushedLines([e]) == if e.Push? then [EntryText(e.entry)] else []
  {
    assert [e][..0] == [];
  }

  lemma PrologueLines(time: string)
    ensures PushedLines(Prologue(time)) == [EntryText(ServiceStarted(time))]
  {
    var t := Prologue(time);
    assert t == [t[0]] + [t[1]] + [t[2]];
    PushedLinesAppend([t[0]] + [t[1]], [t[2]]);
    PushedLinesAppend([t[0]], [t[1]]);
    PushedLinesOne(t[0]);
    PushedLinesOne(t[1]);
    PushedLinesOne(t[2]);
  }

  lemma EpilogueLines(time: string)
    ensures PushedLines(Epilogue(time)) == [EntryText(ServiceClosed(time))]
  {
    var t := Epilogue(time);
    assert t == [t[0]] + [t[1]] + [t[2], t[3], t[4]];
    PushedLinesAppend([t[0]] + [t[1]], [t[2], t[3], t[4]]);
    PushedLinesAppend([t[0]], [t[1]]);
    PushedLinesOne(t[0]);
    PushedLinesOne(t[1]);
    assert PushedLines([t[2], t[3], t[4]]) == [] by {
      assert [t[2], t[3], t[4]] == [t[2]] + [t[3]] + [t[4]];
      PushedLinesAppend([t[2]] + [t[3]], [t[4]]);
      PushedLinesAppend([t[2]], [t[3]]);
      PushedLinesOne(t[2]);
      PushedLinesOne(t[3]);
      PushedLinesOne(t[4]);
    }
  }

  /** The child task's `push_data` calls, made on the shared queue in trace order. */
  method ApplyToLog(q: LogQueue<string>, t: seq<Effect>)
    requires q.Valid()
    modifies q
    ensures q.Valid() && q.broadcast == old(q.broadcast) + PushedLines(t)
    ensures q.cache == Last(q.broadcast, q.cap)
  {
    var i := 0;
    while i < |t|
      invariant 0 <= i <= |t| && q.Valid()
      invariant q.broadcast == old(q.broadcast) + PushedLines(t[..i])
    {
      assert t[..i + 1][..i] == t[..i];
      if t[i].Push? {
        q.PushData(EntryText(t[i].entry));
      }
      i := i + 1;
    }
    assert t[..i] == t;
  }

  class Service {
    /** `Mutex<Option<ServiceInner>>`. */
    var slot: Option<Instance>
    const status: Status
    const logQueue: LogQueue<string>

    /** The backlog keeps its shape and its size of 16. */
    ghost predicate Valid()
      reads this, logQueue
    {
      logQueue.Valid() && logQueue.maxSize == 16
    }

    /** An empty slot over the given status board and backlog. */
    constructor (status: Status, logQueue: LogQueue<string>)
      requires logQueue.Valid() && logQueue.maxSize == 16
      ensures Valid()
      ensures slot.None? && this.status == status && this.logQueue == logQueue
    {
      slot := None;
      this.status := status;
      this.logQueue := logQueue;
    }

    /**
     * `ServiceInner::cancel_and_wait`: cancel the token, wait until the child task has
     * finished (its effects on the status included), then clear the counters and notify.
     */
    method CancelAndWait(run: PumpRun) returns (trace: seq<Effect>)
      requires Valid()
      modifies status, logQueue
      ensures Valid()
      ensures trace == StoppedTrace(run)
      ensures logQueue.broadcast == old(logQueue.broadcast) + PushedLines(trace)
      ensures logQueue.cache == Last(logQueue.broadcast, logQueue.cap)
      ensures !status.isRunning && status.counters == Zero
      ensures status.notifications == old(status.notifications) + multiset(trace)[NotifyStatus] + 1
      ensures status.runningConfig == old(status.runningConfig) && status.coreVersion == old(status.coreVersion)
    {
      var done;
      trace, done := RunChildHandle(run.platform, Cancelling(run), run.startTime, run.closeTime);
      CancelEnds(run.events, run.stop);
      EndedTaskNotRunning(run.platform, Cancelling(run), run.startTime, run.closeTime, status.isRunning);
      ApplyToStatus(status, trace);
      ApplyToLog(logQueue, trace);
      status.CleanData();
      status.Notify();
    }

    /** `stop_service`: take the instance out of the slot and stop it; never an error. */
    method StopService(run: PumpRun) returns (r: Result<(), ServiceError>, trace: seq<Effect>)
      requires Valid()
      modifies this, status, logQueue
      ensures Valid()
      ensures r == Success(()) && slot.None?
      ensures logQueue.broadcast == old(logQueue.broadcast) + (if old(slot).Some? then StopLines(run) else [])
      ensures logQueue.cache == Last(logQueue.broadcast, logQueue.cap)
      ensures old(slot).Some? ==> trace == StoppedTrace(run) && !status.isRunning && status.counters == Zero
      ensures old(slot).Some? ==>
        && status.notifications == old(status.notifications) + multiset(trace)[NotifyStatus] + 1
        && status.runningConfig == old(status.runningConfig) && status.coreVersion == old(status.coreVersion)
      ensures old(slot).None? ==> trace == [] && status.isRunning == old(status.isRunning)
      ensures old(slot).None? ==> status.counters == old(status.counters) && status.notifications == old(status.notifications)
      ensures old(slot).None? ==> status.runningConfig == old(status.runningConfig) && status.coreVersion == old(status.coreVersion)
    {
      assert old(logQueue.broadcast) + [] == old(logQueue.broadcast);
      trace := [];
      if slot.Some? {
        slot := None;
        trace := CancelAndWait(run);
      }
      r := Success(());
    }

    /**
     * `restart_service`: stop the current instance, prepare, start a new one and put it in
     * the slot; on any error the slot stays empty.
     */
    method RestartService(run: PumpRun, corePath: Lookup<string>, active: Lookup<Config>, env: LaunchEnv, host: Host)
      returns (r: Result<(), ServiceError>, trace: seq<Effect>)
      requires StoredObject(active) && Valid()
      modifies this, status, host, logQueue
      ensures Valid()
      ensures var spec := RestartSpec(corePath, active, env);
        && (spec.Success? ==> r == Success(()) && slot == Some(spec.value))
        && (spec.Failure? ==> r == Failure(spec.error) && slot.None?)
      ensures old(slot).Some? ==> trace == StoppedTrace(run)
      ensures old(slot).None? ==> trace == []
      ensures status.isRunning == (old(status.isRunning) && old(slot).None?)
      ensures status.counters == if old(slot).Some? then Zero else old(status.counters)
      ensures PrepareInfo(corePath, active).Success? ==> status.runningConfig == active.value.value.tag
      ensures PrepareInfo(corePath, active).Failure? ==> status.runningConfig == old(status.runningConfig)
      ensures var stopped := if old(slot).Some? then StopWakeups(run) else 0;
        && (PrepareInfo(corePath, active).Failure? ==>
              status.coreVersion == old(status.coreVersion) && status.notifications == old(status.notifications) + stopped)
        && (PrepareInfo(corePath, active).Success? ==>
              && status.coreVersion == VersionAfterLaunch(active.value.value, env, old(status.coreVersion))
              && status.notifications == old(status.notifications) + stopped + LaunchWakeups(active.value.value, env))
      ensures host.State() == if PrepareInfo(corePath, active).Success?
                              then HostAfterLaunch(old(host.State()), active.value.value, env) else old(host.State())
      ensures host.files == old(host.files) && host.executed == old(host.executed)
      ensures logQueue.broadcast == old(logQueue.broadcast) + (if old(slot).Some? then StopLines(run) else [])
      ensures logQueue.cache == Last(logQueue.broadcast, logQueue.cap)
    {
      var _, t := StopService(run);
      trace := t;
      r := StartInstance(corePath, active, env, host);
    }

    /** The second half of `restart_service`, on an empty slot: prepare, start, install. */
    method StartInstance(corePath: Lookup<string>, active: Lookup<Config>, env: LaunchEnv, host: Host)
      returns (r: Result<(), ServiceError>)
      requires StoredObject(active) && Valid() && slot.None?
      modifies this, status, host
      ensures Valid()
      ensures var spec := RestartSpec(corePath, active, env);
        && (spec.Success? ==> r == Success(()) && slot == Some(spec.value))
        && (spec.Failure? ==> r == Failure(spec.error) && slot.None?)
      ensures status.isRunning == old(status.isRunning) && status.counters == old(status.counters)
      ensures PrepareInfo(corePath, active).Success? ==>
        && status.runningConfig == active.value.value.tag
        && status.coreVersion == VersionAfterLaunch(active.value.value, env, old(status.coreVersion))
        && status.notifications == old(status.notifications) + LaunchWakeups(active.value.value, env)
        && host.State() == HostAfterLaunch(old(host.State()), active.value.value, env)
      ensures PrepareInfo(corePath, active).Failure? ==>
        && status.runningConfig == old(status.runningConfig) && status.coreVersion == old(status.coreVersion)
        && status.notifications == old(status.notifications) && host.State() == old(host.State())
      ensures host.files == old(host.files) && host.executed == old(host.executed)
    {
      var prepared := PrepareInfo(corePath, active);
      if prepared.Failure? {
        return Failure(StartServiceFailed(Describe(prepared.error)));
      }
      var (_, c) := prepared.value;
      var launched := Launch(status, host, c, env);
      if launched.result.Failure? {
        return Failure(StartServiceFailed(launched.result.error));
      }
      slot := Some(launched.result.value);
      r := Success(());
    }

    /** `start`: when auto start is on, start the service; a start error is only logged. */
    method Start(autoStart: Result<bool, DbErrors.Error>, run: PumpRun, corePath: Lookup<string>, active: Lookup<Config>,
                 env: LaunchEnv, host: Host)
      returns (r: Result<(), string>, logged: seq<string>)
      requires StoredObject(active) && Valid()
      modifies this, status, host, logQueue
      ensures Valid()
      ensures r == Success(())
      ensures autoStart != Success(true) ==> logged == [] && slot == old(slot) && status.isRunning == old(status.isRunning)
      ensures autoStart != Success(true) ==>
        status.counters == old(status.counters) && status.runningConfig == old(status.runningConfig)
      ensures autoStart != Success(true) ==> status.notifications == old(status.notifications)
      ensures autoStart == Success(true) ==> var spec := RestartSpec(corePath, active, env);
        && (spec.Success? ==> logged == [] && slot == Some(spec.value))
        && (spec.Failure? ==> logged == ["service: auto start failed: " + Describe(spec.error)] && slot.None?)
      ensures autoStart != Success(true) ==> status.coreVersion == old(status.coreVersion)
      ensures autoStart == Success(true) ==>
        && status.isRunning == (old(status.isRunning) && old(slot).None?)
        && status.counters == (if old(slot).Some? then Zero else old(status.counters))
        && (PrepareInfo(corePath, active).Success? ==> status.runningConfig == active.value.value.tag)
        && (PrepareInfo(corePath, active).Failure? ==> status.runningConfig == old(status.runningConfig))
      ensures autoStart == Success(true) ==> var stopped := if old(slot).Some? then StopWakeups(run) else 0;
        && (PrepareInfo(corePath, active).Failure? ==>
              status.coreVersion == old(status.coreVersion) && status.notifications == old(status.notifications) + stopped)
        && (PrepareInfo(corePath, active).Success? ==>
              && status.coreVersion == VersionAfterLaunch(active.value.value, env, old(status.coreVersion))
              && status.notifications == old(status.notifications) + stopped + LaunchWakeups(active.value.value, env))
      ensures host.State() == if autoStart == Success(true) && PrepareInfo(corePath, active).Success?
                              then HostAfterLaunch(old(host.State()), active.value.value, env) else old(host.State())
      ensures host.files == old(host.files) && host.executed == old(host.executed)
      ensures logQueue.broadcast == old(logQueue.broadcast) +
        (if autoStart == Success(true) && old(slot).Some? then StopLines(run) else [])
      ensures logQueue.cache == Last(logQueue.broadcast, logQueue.cap)
    {
      assert old(logQueue.broadcast) + [] == old(logQueue.broadcast);
      logged := [];
      if autoStart == Success(true) {
        var started, _ := RestartService(run, corePath, active, env, host);
        if started.Failure? {
          logged := ["service: auto start failed: " + Describe(started.error)];
        }
      }
      r := Success(());
    }

    /** `close`: stop the service; `stop_service` never fails, so nothing is logged. */
    method Close(run: PumpRun) returns (r: Result<(), string>)
      requires Valid()
      modifies this, status, logQueue
      ensures Valid()
      ensures r == Success(()) && slot.None?
      ensures old(slot).Some? ==> !status.isRunning && status.counters == Zero
      ensures old(slot).Some? ==> status.notifications == old(status.notifications) + StopWakeups(run)
      ensures old(slot).None? ==>
        && status.isRunning == old(status.isRunning) && status.counters == old(status.counters)
        && status.notifications == old(status.notifications)
      ensures status.runningConfig == old(status.runningConfig) && status.coreVersion == old(status.coreVersion)
      ensures logQueue.broadcast == old(logQueue.broadcast) + (if old(slot).Some? then StopLines(run) else [])
      ensures logQueue.cache == Last(logQueue.broadcast, logQueue.cap)
    {
      var stopped, _ := StopService(run);
      r := Success(());
    }

    /** `get_config`: the running instance's (normalised) configuration document. */
    method GetConfig() returns (r: Option<Json>)
      ensures r.None? <==> slot.None?
      ensures r.Some? ==> r.value == slot.value.config.config
    {
      match slot {
        case None => r := None;
        case Some(inst) => r := Some(inst.config.config);
      }
    }

    /**
     * `log_queue_listener`: a listener on the backlog, which `LogQueue.Listen` feeds the
     * cache and then what is broadcast from now on (nothing yet).
     */
    method LogQueueListener() returns (l: Listener)
      ensures l.start <= |logQueue.broadcast| && logQueue.broadcast[l.start..] == []
    {
      l := logQueue.Subscribe();
    }
  }

  /** `Service::new`: an empty slot, a default status and a backlog of 16 lines. */
  method NewService(capacity: nat) returns (svc: Service)
    requires 16 <= capacity
    ensures fresh(svc) && fresh(svc.status) && fresh(svc.logQueue) && svc.Valid() && svc.slot.None?
    ensures !svc.status.isRunning && svc.status.counters == Zero && svc.status.notifications == 0
    ensures svc.status.runningConfig == [] && svc.status.coreVersion == []
    ensures svc.logQueue.cap == capacity && svc.logQueue.cache == [] && svc.logQueue.broadcast == []
  {
    var s := new Status();
    var q := new LogQueue(16, capacity);
    svc := new Service(s, q);
  }

  /** A started service hands out the checked document, whose controller is the instance's listen address. */
  lemma StartedConfigChecked(corePath: Lookup<string>, active: Lookup<Config>, env: LaunchEnv)
    requires StoredObject(active) && RestartSpec(corePath, active, env).Success?
    ensures var inst := RestartSpec(corePath, active, env).value;
      && inst.config.config == Object(ConfigCheck.CheckConfig(active.value.value.config.fields, env.uuid).doc)
      && inst.config.config.fields[ConfigCheck.KeyExperimental].fields[ConfigCheck.KeyClashApi]
           .fields[ConfigCheck.KeyController] == Str(inst.listen)
  {
    LaunchedInstance(active.value.value, env);
  }
}
