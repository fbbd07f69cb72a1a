/**
 * `ServiceInner::new` (src/service/service.rs): the stages that start one instance of
 * the core, each of which may end the start with an error (`?`). The process, its pipes
 * and the two background tasks stay outside the model; what each fallible stage answers
 * is given as a parameter, and the stages reached are counted.
 */
module ServiceLaunch {
  import opened Wrappers
  import opened Json
  import opened Strings
  import opened DbErrors
  import ConfigTable
  import opened ScriptTable
  import opened FsModel
  import opened HookScript
  import opened ConfigCheck
  import opened CoreVersion
  import opened ServiceStatus

  /** The stages of `ServiceInner::new`, in the order they run. */
  datatype Stage =
    | RecordTag         // running_config := tag; notify
    | LoadHooks         // ScriptHandler::new
    | NormaliseConfig   // check_config
    | ParseListen       // SocketAddr::from_str
    | CheckCore         // open the core and read its metadata (unix only)
    | ProbeVersion      // `<core> version` and the version lines
    | RunBeforeStart    // run_before_start_script
    | SpawnCore         // `<core> run --config stdin --disable-color`
    | WriteConfig       // the configuration written to the child's stdin
    | StartTasks        // the control-API task and the child task

  const Stages: seq<Stage> :=
    [RecordTag, LoadHooks, NormaliseConfig, ParseListen, CheckCore, ProbeVersion, RunBeforeStart, SpawnCore,
     WriteConfig, StartTasks]

  /** The four hook lookups `ScriptHandler::new` makes. */
  datatype HookLookups = HookLookups(
    beforeStart: Result<Option<Script>, Error>, afterStart: Result<Option<Script>, Error>,
    beforeClose: Result<Option<Script>, Error>, afterClose: Result<Option<Script>, Error>)

  /** What the outside world answers at each fallible stage. */
  datatype LaunchEnv = LaunchEnv(
    hooks: HookLookups,
    uuid: string,                          // `common::random_uuid()` for a fresh control-API secret
    listenParses: bool,                    // `SocketAddr::from_str` accepts the listen address
    platform: Platform,
    coreOpen: Result<(), string>,          // opening the core and reading its metadata, unix only
    versionOutput: Result<string, string>, // the stdout of `<core> version`, or the error running it
    hookDir: string, hookUuid: string, hookFaults: Faults,   // what the before-start hook meets
    spawn: Result<(), string>,             // spawning the core
    stdin: Option<Result<(), string>>)     // the write of the configuration, None when stdin is not piped

  /** A running instance: the normalised configuration, the control-API address and secret, the hooks. */
  datatype Instance = Instance(config: ConfigTable.Config, listen: string, secret: Option<string>, scripts: Scripts)

  /** How a start ended, and how many stages it began. */
  datatype Launched = Launched(result: Result<Instance, string>, reached: nat)

  /** `AddrParseError`'s Display text. */
  const AddrParseText := "invalid socket address syntax"
  const SpawnFailedText := "service: start service failed: "
  const StdinNotPipedText := "service: stdin is not piped"
  const StdinFailedText := "service: write config to stdin failed: "

  function Hooks(env: LaunchEnv): Result<Scripts, string> {
    LoadScripts(env.hooks.beforeStart, env.hooks.afterStart, env.hooks.beforeClose, env.hooks.afterClose)
  }

  /**
   * `ServiceInner::new`: the first failing stage decides the error; on success the instance
   * keeps the configuration as `check_config` left it.
   */
  function LaunchSpec(config: ConfigTable.Config, env: LaunchEnv): (r: Launched)
    requires config.config.Object?
    ensures 2 <= r.reached <= |Stages|
    ensures r.result.Success? <==> r.reached == |Stages|
  {
    var hooks := Hooks(env);
    if hooks.Failure? then Launched(Failure(hooks.error), 2)
    else
      var c := CheckConfig(config.config.fields, env.uuid);
      if !env.listenParses then Launched(Failure(AddrParseText), 4)
      else if env.platform == Unix && env.coreOpen.Failure? then Launched(Failure(env.coreOpen.error), 5)
      else if env.versionOutput.Failure? then Launched(Failure(env.versionOutput.error), 6)
      else if env.spawn.Failure? then Launched(Failure(SpawnFailedText + env.spawn.error), 8)
      else if env.stdin.None? then Launched(Failure(StdinNotPipedText), 9)
      else if env.stdin.value.Failure? then
        Launched(Failure(StdinFailedText + env.stdin.value.error), 9)
      else Launched(Success(Instance(config.(config := Object(c.doc)), c.listen, c.secret, hooks.value)), 10)
  }

  /**
   * What a start does to the hook host: once the before-start stage is reached, the hook
   * is run by `run_script` as written; before that the host is untouched.
   */
  function HostAfterLaunch(h: HostState, config: ConfigTable.Config, env: LaunchEnv): HostState
    requires config.config.Object?
  {
    if Hooks(env).Success? && LaunchSpec(config, env).reached >= 7 then
      RunScriptSpec(h, HookLabel(BeforeStart), Hooks(env).value.beforeStart, env.platform, env.hookDir, env.hookUuid,
                    AsWrittenOptions, false, env.hookFaults)
    else h
  }

  /** The core version after a start: the probe's last version line once that stage is reached. */
  function VersionAfterLaunch(config: ConfigTable.Config, env: LaunchEnv, version: string): string
    requires config.config.Object?
  {
    if LaunchSpec(config, env).reached >= 7 && env.versionOutput.Success? then
      LastVersion(Split(env.versionOutput.value, '\n'), version)
    else version
  }

  /** The wake-ups of a start: one for the recorded tag, and one per version line once the probe ran. */
  function LaunchWakeups(config: ConfigTable.Config, env: LaunchEnv): nat
    requires config.config.Object?
  {
    1 + if LaunchSpec(config, env).reached >= 7 && env.versionOutput.Success? then
          VersionLines(Split(env.versionOutput.value, '\n'))
        else 0
  }

  /**
   * The order of one start: the before-start stage (`Stages[6]`) is reached exactly when
   * every earlier stage passed, the spawn (`Stages[7]`) is attempted exactly when the
   * hook has run, so a start that reaches the spawn has the hook's effect on its host;
   * the configuration is written (`Stages[8]`) only after a successful spawn, and the
   * tasks start (`Stages[9]`) only after a successful write.
   */
  lemma BeforeStartPrecedesSpawn(h: HostState, config: ConfigTable.Config, env: LaunchEnv)
    requires config.config.Object?
    ensures Stages[6] == RunBeforeStart && Stages[7] == SpawnCore && Stages[8] == WriteConfig && Stages[9] == StartTasks
    ensures var r := LaunchSpec(config, env);
      && (r.reached >= 7 <==>
            Hooks(env).Success? && env.listenParses && !(env.platform == Unix && env.coreOpen.Failure?)
            && env.versionOutput.Success?)
      && (r.reached >= 8 <==> r.reached >= 7)
      && (r.reached >= 8 ==>
            HostAfterLaunch(h, config, env)
            == RunScriptSpec(h, HookLabel(BeforeStart), Hooks(env).value.beforeStart, env.platform, env.hookDir,
                             env.hookUuid, AsWrittenOptions, false, env.hookFaults))
      && (r.reached < 7 ==> HostAfterLaunch(h, config, env) == h)
      && (r.reached >= 9 <==> r.reached >= 8 && env.spawn.Success?)
      && (r.reached == 10 <==> r.reached >= 9 && env.stdin.Some? && env.stdin.value.Success?)
  {
  }

  /** As written, no start ever runs a hook script or leaves a file behind: the before-start hook's open is refused. */
  lemma LaunchNeverRunsHook(h: HostState, config: ConfigTable.Config, env: LaunchEnv)
    requires config.config.Object?
    ensures var r := HostAfterLaunch(h, config, env);
      r.files == h.files && r.executed == h.executed
  {
    if Hooks(env).Success? && LaunchSpec(config, env).reached >= 7 {
      HookNeverRuns(h, HookLabel(BeforeStart), Hooks(env).value.beforeStart, env.platform, env.hookDir, env.hookUuid,
                    env.hookFaults);
    }
  }

  /** A failed hook lookup ends the start before the configuration is even looked at. */
  lemma HookLookupFailureFirst(config: ConfigTable.Config, env: LaunchEnv)
    requires config.config.Object? && Hooks(env).Failure?
    ensures LaunchSpec(config, env) == Launched(Failure(Hooks(env).error), 2)
    ensures StartsWith(Hooks(env).error, "get ")
  {
    HookErrorNamesLookup(env.hooks);
  }

  lemma HookErrorNamesLookup(h: HookLookups)
    requires LoadScripts(h.beforeStart, h.afterStart, h.beforeClose, h.afterClose).Failure?
    ensures StartsWith(LoadScripts(h.beforeStart, h.afterStart, h.beforeClose, h.afterClose).error, "get ")
  {
    var p: string;
    var e: Error;
    if h.beforeStart.Failure? {
      p := "get before start script failed: ";
      assert p[..4] == "get ";
      e := h.beforeStart.error;
    } else if h.afterStart.Failure? {
      p := "get after start script failed: ";
      assert p[..4] == "get ";
      e := h.afterStart.error;
    } else if h.beforeClose.Failure? {
      p := "get before close script failed: ";
      assert p[..4] == "get ";
      e := h.beforeClose.error;
    } else {
      p := "get after close script failed: ";
      assert p[..4] == "get ";
      e := h.afterClose.error;
    }
    PrefixOfPrefix(p, Display(e), 4);
  }

  lemma PrefixOfPrefix(p: string, x: string, n: nat)
    requires n <= |p|
    ensures (p + x)[..n] == p[..n]
  {
  }

  /**
   * A spawn failure comes after the before-start hook has run: the hook's effects stay,
   * the start fails, and no after-close hook will ever follow it.
   */
  lemma SpawnFailureAfterHook(config: ConfigTable.Config, env: LaunchEnv)
    requires config.config.Object? && Hooks(env).Success? && env.listenParses
    requires env.platform == Unix ==> env.coreOpen.Success?
    requires env.versionOutput.Success? && env.spawn.Failure?
    ensures var r := LaunchSpec(config, env);
      && RunBeforeStart in Stages[..r.reached] && StartTasks !in Stages[..r.reached]
      && r.result == Failure(SpawnFailedText + env.spawn.error)
  {
    var done := Stages[..8];
    assert done[6] == RunBeforeStart;
    assert forall i :: 0 <= i < 8 ==> done[i] != StartTasks;
  }

  /** The core is only checked on unix: elsewhere an unreadable core does not stop the start. */
  lemma CoreCheckedOnlyOnUnix(config: ConfigTable.Config, env: LaunchEnv)
    requires config.config.Object? && Hooks(env).Success? && env.listenParses && env.coreOpen.Failure?
    ensures env.platform == Unix ==> LaunchSpec(config, env) == Launched(Failure(env.coreOpen.error), 5)
    ensures env.platform != Unix ==> LaunchSpec(config, env).reached > 5
  {
  }

  /** A started instance holds the checked configuration and the control-API address the check returned. */
  lemma LaunchedInstance(config: ConfigTable.Config, env: LaunchEnv)
    requires config.config.Object?
    requires LaunchSpec(config, env).result.Success?
    ensures var inst := LaunchSpec(config, env).result.value;
      var c := CheckConfig(config.config.fields, env.uuid);
      && inst.config.id == config.id && inst.config.tag == config.tag && inst.config.actived == config.actived
      && inst.config.config == Object(c.doc)
      && inst.listen == c.listen && inst.secret == c.secret
      && inst.config.config.fields[KeyExperimental].fields[KeyClashApi].fields[KeyController] == Str(inst.listen)
      && Hooks(env) == Success(inst.scripts)
  {
    ListenIsConfigured(config.config.fields, env.uuid);
  }

  /**
   * The stages run on the shared status and the hook host: the tag is recorded and
   * announced; the version probe updates the core version; the before-start hook runs on
   * the host, as written, once that stage is reached.
   */
  method Launch(status: Status, host: Host, config: ConfigTable.Config, env: LaunchEnv) returns (r: Launched)
    requires config.config.Object?
    modifies status, host
    ensures r == LaunchSpec(config, env)
    ensures status.runningConfig == config.tag
    ensures status.isRunning == old(status.isRunning) && status.counters == old(status.counters)
    ensures r.reached >= 7 ==>
      && status.coreVersion == LastVersion(Split(env.versionOutput.value, '\n'), old(status.coreVersion))
      && status.notifications == old(status.notifications) + 1 + VersionLines(Split(env.versionOutput.value, '\n'))
      && host.logs == old(host.logs) + NeverRunNotes(HookLabel(BeforeStart), Hooks(env).value.beforeStart)
    ensures r.reached < 7 ==>
      && status.coreVersion == old(status.coreVersion) && status.notifications == old(status.notifications) + 1
      && host.logs == old(host.logs)
    ensures host.State() == HostAfterLaunch(old(host.State()), config, env)
    ensures host.files == old(host.files) && host.executed == old(host.executed)
    ensures status.coreVersion == VersionAfterLaunch(config, env, old(status.coreVersion))
    ensures status.notifications == old(status.notifications) + LaunchWakeups(config, env)
  {
    status.SetRunningConfig(config.tag);
    status.Notify();
    var failed, scripts, checked, listen, secret := Prepare(config, env);
    if failed.Some? {
      return failed.value;
    }
    r := StartCore(status, host, config, env, scripts, checked, listen, secret);
  }

  /**
   * The stages from loading the hooks to running the version probe, none of which touches
   * the shared state: either the start already failed there, or everything the later
   * stages need is at hand.
   */
  method Prepare(config: ConfigTable.Config, env: LaunchEnv)
    returns (failed: Option<Launched>, scripts: Scripts, checked: Json, listen: string, secret: Option<string>)
    requires config.config.Object?
    ensures failed.Some? ==> failed.value == LaunchSpec(config, env) && failed.value.reached < 7
    ensures failed.None? ==>
      && Hooks(env) == Success(scripts) && env.listenParses
      && !(env.platform == Unix && env.coreOpen.Failure?) && env.versionOutput.Success?
      && checked.Object? && Checked(checked.fields, listen, secret) == CheckConfig(config.config.fields, env.uuid)
  {
    var hooks := LoadScripts(env.hooks.beforeStart, env.hooks.afterStart, env.hooks.beforeClose, env.hooks.afterClose);
    checked, listen, secret := config.config, "", None;
    if hooks.Failure? {
      return Some(Launched(Failure(hooks.error), 2)), Scripts(None, None, None, None), checked, listen, secret;
    }
    scripts := hooks.value;
    checked, listen, secret := CheckConfigInPlace(config.config, env.uuid);
    failed := None;
    if !env.listenParses {
      failed := Some(Launched(Failure(AddrParseText), 4));
    } else if env.platform == Unix && env.coreOpen.Failure? {
      failed := Some(Launched(Failure(env.coreOpen.error), 5));
    } else if env.versionOutput.Failure? {
      failed := Some(Launched(Failure(env.versionOutput.error), 6));
    }
  }

  /**
   * The stages after the version probe was run: its lines update the status, the
   * before-start hook runs, then the core is spawned and its configuration written.
   */
  method StartCore(status: Status, host: Host, config: ConfigTable.Config, env: LaunchEnv, scripts: Scripts,
                   checked: Json, listen: string, secret: Option<string>) returns (r: Launched)
    requires config.config.Object? && Hooks(env) == Success(scripts) && env.listenParses
    requires !(env.platform == Unix && env.coreOpen.Failure?) && env.versionOutput.Success?
    requires checked.Object? && Checked(checked.fields, listen, secret) == CheckConfig(config.config.fields, env.uuid)
    modifies status, host
    ensures r == LaunchSpec(config, env) && r.reached >= 8
    ensures status.runningConfig == old(status.runningConfig)
    ensures status.isRunning == old(status.isRunning) && status.counters == old(status.counters)
    ensures status.coreVersion == LastVersion(Split(env.versionOutput.value, '\n'), old(status.coreVersion))
    ensures status.notifications == old(status.notifications) + VersionLines(Split(env.versionOutput.value, '\n'))
    ensures host.State() == RunScriptSpec(old(host.State()), HookLabel(BeforeStart), scripts.beforeStart,
                                          env.platform, env.hookDir, env.hookUuid, AsWrittenOptions, false, env.hookFaults)
    ensures host.files == old(host.files) && host.executed == old(host.executed)
    ensures host.logs == old(host.logs) + NeverRunNotes(HookLabel(BeforeStart), scripts.beforeStart)
  {
    var _ := ParseVersionOutput(status, env.versionOutput.value);
    host.RunHook(scripts, BeforeStart, env.platform, env.hookDir, env.hookUuid, env.hookFaults);
    if env.spawn.Failure? {
      return Launched(Failure(SpawnFailedText + env.spawn.error), 8);
    }
    match env.stdin {
      case None =>
        return Launched(Failure(StdinNotPipedText), 9);
      case Some(written) =>
        if written.Failure? {
          return Launched(Failure(StdinFailedText + written.error), 9);
        }
    }
    r := Launched(Success(Instance(config.(config := checked), listen, secret, scripts)), 10);
  }
}
