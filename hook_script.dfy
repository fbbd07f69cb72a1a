/**
 * The hook-script runner of src/service/script.rs: loading the four lifecycle scripts,
 * and `run_script`, which writes a script into a temp file, marks it executable, runs it
 * and removes it again, logging instead of failing at every step. The file system,
 * the logger and the process spawner are an abstract host whose state the run changes.
 */
module HookScript {
  import opened Wrappers
  import opened Strings
  import opened DbErrors
  import opened ScriptTable
  import opened FsModel
  import Logger

  /** What `ScriptHandler::new` keeps: the script holding each lifecycle point, if any. */
  datatype Scripts = Scripts(
    beforeStart: Option<Script>, afterStart: Option<Script>,
    beforeClose: Option<Script>, afterClose: Option<Script>)

  /**
   * `ScriptHandler::new`: the four lookups are awaited together, then inspected in the
   * order before start, after start, before close, after close; the first failure is
   * reported with its lifecycle point named.
   */
  function LoadScripts(
    bs: Result<Option<Script>, Error>, as_: Result<Option<Script>, Error>,
    bc: Result<Option<Script>, Error>, ac: Result<Option<Script>, Error>): (r: Result<Scripts, string>)
    ensures r.Success? <==> bs.Success? && as_.Success? && bc.Success? && ac.Success?
    ensures r.Success? ==> r.value == Scripts(bs.value, as_.value, bc.value, ac.value)
    ensures bs.Failure? ==> r == Failure("get before start script failed: " + Display(bs.error))
    ensures bs.Success? && as_.Failure? ==> r == Failure("get after start script failed: " + Display(as_.error))
    ensures bs.Success? && as_.Success? && bc.Failure? ==>
      r == Failure("get before close script failed: " + Display(bc.error))
    ensures bs.Success? && as_.Success? && bc.Success? && ac.Failure? ==>
      r == Failure("get after close script failed: " + Display(ac.error))
  {
    var before_start :- Labelled(bs, "get before start script failed: ");
    var after_start :- Labelled(as_, "get after start script failed: ");
    var before_close :- Labelled(bc, "get before close script failed: ");
    var after_close :- Labelled(ac, "get after close script failed: ");
    Success(Scripts(before_start, after_start, before_close, after_close))
  }

  function Labelled<T>(r: Result<T, Error>, prefix: string): Result<T, string> {
    match r
    case Success(v) => Success(v)
    case Failure(e) => Failure(prefix + Display(e))
  }

  /** The title `run_before_start_script` and its siblings pass to `run_script`. */
  function HookLabel(t: ScriptRunType): string
    requires t != Disabled
  {
    match t
    case BeforeStart => "before start script"
    case AfterStart => "after start script"
    case BeforeClose => "before close script"
    case AfterClose => "after close script"
  }

  /** The script `run_before_start_script` and its siblings pass to `run_script`. */
  function ScriptFor(s: Scripts, t: ScriptRunType): (r: Option<Script>)
    requires t != Disabled
    ensures t == BeforeStart ==> r == s.beforeStart
    ensures t == AfterStart ==> r == s.afterStart
    ensures t == BeforeClose ==> r == s.beforeClose
    ensures t == AfterClose ==> r == s.afterClose
  {
    match t
    case BeforeStart => s.beforeStart
    case AfterStart => s.afterStart
    case BeforeClose => s.beforeClose
    case AfterClose => s.afterClose
  }

  /** The title with spaces turned into '_', then '_', then the token without its dashes. */
  function TempName(title: string, uuid: string): string {
    ReplaceChar(title, ' ', '_') + "_" + RemoveChar(uuid, '-')
  }

  /** `ScriptHandler::set_extension` on a file name: ".sh" on unix, ".bat" on windows, else unchanged. */
  function WithPlatformExtension(platform: Platform, name: string): string {
    match platform
    case Unix => SetExtension(name, "sh")
    case Windows => SetExtension(name, "bat")
    case OtherOs => name
  }

  /**
   * The temp file `run_script` uses. The labels and the tokens `random_uuid` produces hold
   * no '/', so the extension lands on the name just joined below the temp directory.
   */
  function TempPath(platform: Platform, tempDir: string, title: string, uuid: string): string {
    Join(tempDir, WithPlatformExtension(platform, TempName(title, uuid)))
  }

  lemma TempNameShape(title: string, uuid: string)
    ensures var n := TempName(title, uuid);
      |n| == |title| + 1 + |RemoveChar(uuid, '-')|
      && ' ' !in n[..|title|] && n[|title|] == '_' && '-' !in n[|title| + 1..]
  {
    var n := TempName(title, uuid);
    assert n[|title| + 1..] == RemoveChar(uuid, '-');
    assert n[..|title|] == ReplaceChar(title, ' ', '_');
  }

  /** A dot-free label and token give a non-empty, dot-free temp name that does not start with '/'. */
  lemma TempNamePlain(title: string, uuid: string)
    requires '.' !in title && '.' !in uuid && '/' !in title
    ensures var n := TempName(title, uuid); n != [] && '.' !in n && n[0] != '/'
  {
    var n := TempName(title, uuid);
    var front := ReplaceChar(title, ' ', '_');
    var back := RemoveChar(uuid, '-');
    assert n == front + "_" + back;
    assert '.' !in front by {
      forall i | 0 <= i < |front| ensures front[i] != '.' { assert title[i] != '.'; }
    }
    assert '.' !in back;
    if title != [] { assert n[0] == front[0] && title[0] != '/'; } else { assert n[0] == '_'; }
  }

  /**
   * For a dot-free label and token the temp file is right below the temp directory and
   * its name is the temp name followed by the platform's extension.
   */
  lemma TempPathShape(platform: Platform, tempDir: string, title: string, uuid: string)
    requires '.' !in title && '.' !in uuid && '/' !in title && tempDir != []
    ensures StartsWith(TempPath(platform, tempDir, title, uuid), tempDir)
    ensures platform == Unix ==> EndsWith(TempPath(platform, tempDir, title, uuid), TempName(title, uuid) + ".sh")
    ensures platform == Windows ==> EndsWith(TempPath(platform, tempDir, title, uuid), TempName(title, uuid) + ".bat")
    ensures platform == OtherOs ==> EndsWith(TempPath(platform, tempDir, title, uuid), TempName(title, uuid))
  {
    var n := TempName(title, uuid);
    TempNamePlain(title, uuid);
    ExtensionKeepsHead(platform, n);
    JoinBelow(tempDir, WithPlatformExtension(platform, n));
  }

  lemma ExtensionKeepsHead(platform: Platform, n: string)
    requires n != [] && '.' !in n && n[0] != '/'
    ensures var named := WithPlatformExtension(platform, n);
      && named != [] && named[0] == n[0]
      && (platform == Unix ==> named == n + ".sh")
      && (platform == Windows ==> named == n + ".bat")
      && (platform == OtherOs ==> named == n)
  {
    match platform {
      case Unix => SetExtensionAppends(n, "sh");
      case Windows => SetExtensionAppends(n, "bat");
      case OtherOs =>
    }
  }

  /** The four hooks never share a temp file, whatever tokens they draw. */
  lemma HookNamesDistinct(t1: ScriptRunType, t2: ScriptRunType, u1: string, u2: string)
    requires t1 != Disabled && t2 != Disabled && t1 != t2
    ensures TempName(HookLabel(t1), u1) != TempName(HookLabel(t2), u2)
  {
    var before1 := t1 == BeforeStart || t1 == BeforeClose;
    var before2 := t2 == BeforeStart || t2 == BeforeClose;
    // "before " and "after " tell the two pairs apart; "start" and "close" follow them.
    var i := if before1 != before2 then 0 else if before1 then 7 else 6;
    assert HookLabel(t1)[i] != ' ' && HookLabel(t2)[i] != ' ' && HookLabel(t1)[i] != HookLabel(t2)[i];
    TempNameChar(HookLabel(t1), u1, i);
    TempNameChar(HookLabel(t2), u2, i);
  }

  lemma TempNameChar(title: string, uuid: string, i: nat)
    requires i < |title| && title[i] != ' '
    ensures i < |TempName(title, uuid)| && TempName(title, uuid)[i] == title[i]
  {
    assert TempName(title, uuid)[i] == ReplaceChar(title, ' ', '_')[i];
  }

  /** What the child process produced: the Display text of its exit status and its two streams. */
  datatype ProcOutput = ProcOutput(status: string, stdout: string, stderr: string)

  /** The line `run_script` logs after a successful run. */
  function Summary(o: ProcOutput): (r: string)
    ensures StartsWith(r, "exit code: " + o.status)
    ensures o.stdout == [] && o.stderr == [] ==> r == "exit code: " + o.status
    ensures o.stderr != [] ==> EndsWith(r, "; stderr: " + o.stderr)
    ensures o.stdout != [] && o.stderr == [] ==> EndsWith(r, "; stdout: " + o.stdout)
    ensures o.stdout == [] && o.stderr != [] ==> r == "exit code: " + o.status + "; stderr: " + o.stderr
    ensures o.stdout != [] && o.stderr != [] ==> r == "exit code: " + o.status + "; stdout: " + o.stdout + "; stderr: " + o.stderr
  {
    var s := "exit code: " + o.status;
    var s := if o.stdout != [] then s + "; stdout: " + o.stdout else s;
    var s := if o.stderr != [] then s + "; stderr: " + o.stderr else s;
    assert StartsWith(s, "exit code: " + o.status);
    s
  }

  /** One log record: the level and the message. */
  datatype LogRecord = LogRecord(level: Logger.Level, text: string)

  /** The messages `run_script` logs, one constructor per `log::debug!` / `log::error!` call. */
  datatype Note =
    | RunTag(title: string, tag: string)
    | CreateFailed(title: string, e: IoError)
    | WriteFailed(title: string, e: IoError)
    | PermissionFailed(title: string, e: IoError)
    | RunOutput(title: string, o: ProcOutput)
    | RunFailed(title: string, e: IoError)
    | RemoveFailed(title: string, e: IoError)

  /** The level and text each message is logged with. */
  function Record(n: Note): (r: LogRecord)
    ensures r.level == Logger.Debug <==> n.RunTag? || n.RunOutput?
  {
    match n
    case RunTag(t, tag) => LogRecord(Logger.Debug, "service: run " + t + ": tag: " + tag)
    case CreateFailed(t, e) => LogRecord(Logger.Error, "service: create " + t + " failed: " + IoErrorText(e))
    case WriteFailed(t, e) => LogRecord(Logger.Error, "service: write " + t + " failed: " + IoErrorText(e))
    case PermissionFailed(t, e) => LogRecord(Logger.Error, "service: " + t + ": set permission failed: " + IoErrorText(e))
    case RunOutput(t, o) => LogRecord(Logger.Debug, "service: run " + t + " output: " + Summary(o))
    case RunFailed(t, e) => LogRecord(Logger.Error, "service: run " + t + " failed: " + IoErrorText(e))
    case RemoveFailed(t, e) => LogRecord(Logger.Error, "service: remove " + t + " failed: " + IoErrorText(e))
  }

  /**
   * The part of the outside world `run_script` touches: the files, the messages logged
   * (each written out as `Record` gives it) and the content of every script run.
   */
  datatype HostState = HostState(files: Files, logs: seq<Note>, executed: seq<string>)

  /**
   * The steps of a run that succeed or fail outside the file table: the write, the unix
   * permission step (reopen and metadata), the process outcome, and the removal.
   */
  datatype Faults = Faults(
    write: Option<IoError>, permission: Option<IoError>, exec: Result<ProcOutput, IoError>, remove: Option<IoError>)

  /** The run succeeds at every step outside the file table, with this process outcome. */
  function Smooth(exec: Result<ProcOutput, IoError>): Faults {
    Faults(None, None, exec, None)
  }

  /** The options `run_script` opens the temp file with: create, no truncation, and no access mode. */
  const AsWrittenOptions := NoOptions.(create := true, truncate := false)

  /** The same options with write access, which `open` accepts. */
  const FixedOptions := AsWrittenOptions.(write := true)

  /** `Command::new(path).output()`: a missing file, a unix file without execute bit, or the process outcome. */
  function Spawn(files: Files, path: string, platform: Platform, exec: Result<ProcOutput, IoError>): (r: Result<ProcOutput, IoError>)
    ensures path !in files ==> r == Failure(NotFound)
    ensures path in files && platform == Unix && !files[path].executable ==> r == Failure(PermissionDenied)
    ensures r.Success? ==> r == exec
  {
    if path !in files then Failure(NotFound)
    else if platform == Unix && !files[path].executable then Failure(PermissionDenied)
    else exec
  }

  /** No file other than `path` appears, disappears or changes from `h` to `r`. */
  predicate Frames(h: HostState, r: HostState, path: string) {
    && r.files.Keys <= h.files.Keys + {path}
    && (forall p :: p in h.files && p != path ==> p in r.files && r.files[p] == h.files[p])
  }

  function Logged(h: HostState, n: Note): HostState {
    h.(logs := h.logs + [n])
  }

  /** `std::fs::remove_file` after the run; a failure is logged and leaves the file. */
  function RemoveStep(h: HostState, title: string, path: string, fault: Option<IoError>): (r: HostState)
    ensures fault.None? && path in h.files ==> r == h.(files := h.files - {path})
    ensures r.executed == h.executed
    ensures Frames(h, r, path) && h.logs <= r.logs
  {
    var removed := if fault.Some? then Failure(fault.value) else Remove(h.files, path);
    match removed
    case Success(files) => h.(files := files)
    case Failure(e) => Logged(h, RemoveFailed(title, e))
  }

  /** The spawn and the removal, the part of `run_script` that every attempt to run reaches. */
  function RunStep(h: HostState, title: string, path: string, platform: Platform, faults: Faults): (r: HostState)
    requires path in h.files
    ensures faults.remove.None? ==> r.files == h.files - {path}
    ensures faults.remove.Some? ==> r.files == h.files
    ensures Spawn(h.files, path, platform, faults.exec).Success? ==> r.executed == h.executed + [h.files[path].content]
    ensures Spawn(h.files, path, platform, faults.exec).Failure? ==> r.executed == h.executed
    ensures Frames(h, r, path) && h.logs < r.logs
  {
    var ran := match Spawn(h.files, path, platform, faults.exec)
      case Success(o) =>
        Logged(h.(executed := h.executed + [h.files[path].content]), RunOutput(title, o))
      case Failure(e) =>
        Logged(h, RunFailed(title, e));
    RemoveStep(ran, title, path, faults.remove)
  }

  /** The write into the freshly opened file, the unix permission step, then the run. */
  function WriteStep(h: HostState, title: string, path: string, content: string, platform: Platform,
                     append: bool, writeBack: bool, faults: Faults): (r: HostState)
    requires path in h.files
    ensures faults.write.Some? || (platform == Unix && faults.permission.Some?) ==>
      r.executed == h.executed && path in r.files
    ensures Frames(h, r, path) && h.logs < r.logs
    ensures r.executed == h.executed || exists c :: r.executed == h.executed + [c]
  {
    if faults.write.Some? then
      Logged(h, WriteFailed(title, faults.write.value))
    else
      var written := h.files[path := h.files[path].(content := WriteFromStart(h.files[path].content, content, append))];
      if platform == Unix && faults.permission.Some? then
        Logged(h.(files := written), PermissionFailed(title, faults.permission.value))
      else
        var marked := if platform == Unix && writeBack then written[path := written[path].(executable := true)] else written;
        RunStep(h.(files := marked), title, path, platform, faults)
  }

  /**
   * `run_script(title, script)` with the options the temp file is opened with and whether
   * the unix permission step writes the new mode back, so that the code as written and
   * the corrected code are one definition. Nothing is returned: every failure is logged.
   */
  function RunScriptSpec(
    h: HostState, title: string, script: Option<Script>, platform: Platform, tempDir: string, uuid: string,
    opts: OpenOptions, writeBack: bool, faults: Faults): HostState
  {
    if script.None? then h
    else
      var s := script.value;
      var started := Logged(h, RunTag(title, s.tag));
      var path := TempPath(platform, tempDir, title, uuid);
      match Open(started.files, path, opts)
      case Failure(e) =>
        Logged(started, CreateFailed(title, e))
      case Success(created) =>
        WriteStep(started.(files := created), title, path, s.content, platform, opts.append, writeBack, faults)
  }

  /** The effect of a run with no script configured is none at all. */
  lemma NoScriptNoEffect(h: HostState, title: string, platform: Platform, tempDir: string, uuid: string,
                         opts: OpenOptions, writeBack: bool, faults: Faults)
    ensures RunScriptSpec(h, title, None, platform, tempDir, uuid, opts, writeBack, faults) == h
  {
  }

  /**
   * Whatever happens, a run only appends to the log, touches no file but its own temp
   * file, and runs at most the configured script's content, once.
   */
  lemma RunScriptFrame(h: HostState, title: string, s: Script, platform: Platform, tempDir: string, uuid: string,
                       opts: OpenOptions, writeBack: bool, faults: Faults)
    ensures var r := RunScriptSpec(h, title, Some(s), platform, tempDir, uuid, opts, writeBack, faults);
      && Frames(h, r, TempPath(platform, tempDir, title, uuid))
      && h.logs < r.logs
      && (r.executed == h.executed || exists c :: r.executed == h.executed + [c])
  {
    var started := Logged(h, RunTag(title, s.tag));
    var path := TempPath(platform, tempDir, title, uuid);
    assert h.logs < started.logs;
    match Open(started.files, path, opts) {
      case Failure(e) =>
      case Success(created) =>
        assert Frames(h, started.(files := created), path);
    }
  }

  /**
   * The code as written never gets past the create step: `open` refuses `create` without
   * write or append access, so each configured hook only logs that its creation failed.
   */
  lemma AsWrittenHookNeverRuns(h: HostState, title: string, s: Script, platform: Platform, tempDir: string,
                               uuid: string, writeBack: bool, faults: Faults)
    ensures RunScriptSpec(h, title, Some(s), platform, tempDir, uuid, AsWrittenOptions, writeBack, faults)
      == h.(logs := h.logs + [RunTag(title, s.tag), CreateFailed(title, InvalidInput)])
  {
    CreateWithoutWriteRejected(AsWrittenOptions);
    var started := Logged(h, RunTag(title, s.tag));
    assert Open(started.files, TempPath(platform, tempDir, title, uuid), AsWrittenOptions) == Failure(InvalidInput);
    assert started.logs + [CreateFailed(title, InvalidInput)] == h.logs + [RunTag(title, s.tag), CreateFailed(title, InvalidInput)];
  }

  /** What the code as written logs for a hook: nothing without a script, else its tag and the failed creation. */
  function NeverRunNotes(title: string, script: Option<Script>): seq<Note> {
    match script
    case None => []
    case Some(s) => [RunTag(title, s.tag), CreateFailed(title, InvalidInput)]
  }

  /** Configured or not, a hook run as written leaves the files and the executed scripts as they were. */
  lemma HookNeverRuns(h: HostState, title: string, script: Option<Script>, platform: Platform, tempDir: string,
                      uuid: string, faults: Faults)
    ensures var r := RunScriptSpec(h, title, script, platform, tempDir, uuid, AsWrittenOptions, false, faults);
      r.files == h.files && r.executed == h.executed && r.logs == h.logs + NeverRunNotes(title, script)
  {
    match script
    case None =>
      NoScriptNoEffect(h, title, platform, tempDir, uuid, AsWrittenOptions, false, faults);
      assert h.logs + [] == h.logs;
    case Some(s) =>
      AsWrittenHookNeverRuns(h, title, s, platform, tempDir, uuid, false, faults);
  }

  /** With the corrected options, a fresh temp file is created empty and the run goes on to the write. */
  lemma FixedOpenReachesWrite(h: HostState, title: string, s: Script, platform: Platform, tempDir: string,
                              uuid: string, writeBack: bool, faults: Faults)
    requires TempPath(platform, tempDir, title, uuid) !in h.files
    ensures var path := TempPath(platform, tempDir, title, uuid);
      var started := Logged(h, RunTag(title, s.tag));
      RunScriptSpec(h, title, Some(s), platform, tempDir, uuid, FixedOptions, writeBack, faults)
      == WriteStep(started.(files := h.files[path := Entry([], false)]), title, path, s.content, platform, false, writeBack, faults)
  {
    CreateWithWriteAccepted(FixedOptions, h.files, TempPath(platform, tempDir, title, uuid));
  }

  /** A smooth write into a fresh empty file leaves exactly the script's content there. */
  lemma FreshWrite(files: Files, path: string, content: string, executable: bool)
    requires path !in files
    ensures var w := files[path := Entry([], false)];
      var m := w[path := w[path].(content := WriteFromStart(w[path].content, content, false))];
      m[path := m[path].(executable := executable)] == files[path := Entry(content, executable)]
      && m == files[path := Entry(content, false)]
      && files[path := Entry(content, executable)] - {path} == files
  {
    assert WriteFromStart([], content, false) == content;
    assert files[path := Entry(content, executable)] - {path} == files;
  }

  /**
   * With write access but the permission change still not written back, a unix run fails
   * to spawn the fresh (non-executable) file, and the file is removed afterwards.
   */
  lemma ModeNotWrittenBackFailsSpawn(h: HostState, title: string, s: Script, tempDir: string, uuid: string,
                                     exec: Result<ProcOutput, IoError>)
    requires TempPath(Unix, tempDir, title, uuid) !in h.files
    ensures var r := RunScriptSpec(h, title, Some(s), Unix, tempDir, uuid, FixedOptions, false, Smooth(exec));
      && r.executed == h.executed
      && r.files == h.files
      && r.logs[|r.logs| - 1] == RunFailed(title, PermissionDenied)
  {
    var path := TempPath(Unix, tempDir, title, uuid);
    FixedOpenReachesWrite(h, title, s, Unix, tempDir, uuid, false, Smooth(exec));
    FreshWrite(h.files, path, s.content, false);
    var started := Logged(h, RunTag(title, s.tag));
    var marked := started.(files := h.files[path := Entry(s.content, false)]);
    assert Spawn(marked.files, path, Unix, exec) == Failure(PermissionDenied);
  }

  /**
   * The corrected runner runs the stored script exactly once, logs its summary and leaves
   * the file table as it found it.
   */
  lemma FixedHookRunsAndCleansUp(h: HostState, title: string, s: Script, platform: Platform, tempDir: string,
                                 uuid: string, o: ProcOutput)
    requires TempPath(platform, tempDir, title, uuid) !in h.files
    ensures var r := RunScriptSpec(h, title, Some(s), platform, tempDir, uuid, FixedOptions, true, Smooth(Success(o)));
      && r.executed == h.executed + [s.content]
      && r.files == h.files
      && r.logs == h.logs + [RunTag(title, s.tag), RunOutput(title, o)]
  {
    var path := TempPath(platform, tempDir, title, uuid);
    FixedOpenReachesWrite(h, title, s, platform, tempDir, uuid, true, Smooth(Success(o)));
    FreshWrite(h.files, path, s.content, platform == Unix);
    var started := Logged(h, RunTag(title, s.tag));
    var marked := started.(files := h.files[path := Entry(s.content, platform == Unix)]);
    assert Spawn(marked.files, path, platform, Success(o)) == Success(o);
  }

  /** Once the spawn step is reached the temp file is removed, whether or not the process could start. */
  lemma SpawnReachedRemovesFile(h: HostState, title: string, s: Script, platform: Platform, tempDir: string,
                                uuid: string, writeBack: bool, exec: Result<ProcOutput, IoError>)
    requires TempPath(platform, tempDir, title, uuid) !in h.files
    ensures RunScriptSpec(h, title, Some(s), platform, tempDir, uuid, FixedOptions, writeBack, Smooth(exec)).files == h.files
  {
    var path := TempPath(platform, tempDir, title, uuid);
    FixedOpenReachesWrite(h, title, s, platform, tempDir, uuid, writeBack, Smooth(exec));
    FreshWrite(h.files, path, s.content, platform == Unix && writeBack);
  }

  /** A failed write or permission step returns early: nothing runs and the temp file is left behind. */
  lemma EarlyReturnLeaksFile(h: HostState, title: string, s: Script, platform: Platform, tempDir: string,
                             uuid: string, writeBack: bool, faults: Faults)
    requires TempPath(platform, tempDir, title, uuid) !in h.files
    requires faults.write.Some? || (platform == Unix && faults.permission.Some?)
    ensures var r := RunScriptSpec(h, title, Some(s), platform, tempDir, uuid, FixedOptions, writeBack, faults);
      && r.executed == h.executed
      && TempPath(platform, tempDir, title, uuid) in r.files
      && Record(r.logs[|r.logs| - 1]).level == Logger.Error
  {
    FixedOpenReachesWrite(h, title, s, platform, tempDir, uuid, writeBack, faults);
    var path := TempPath(platform, tempDir, title, uuid);
    var started := Logged(h, RunTag(title, s.tag));
    EarlyWriteExit(started.(files := h.files[path := Entry([], false)]), title, path, s.content, platform, writeBack, faults);
  }

  lemma EarlyWriteExit(h: HostState, title: string, path: string, content: string, platform: Platform,
                       writeBack: bool, faults: Faults)
    requires path in h.files
    requires faults.write.Some? || (platform == Unix && faults.permission.Some?)
    ensures var r := WriteStep(h, title, path, content, platform, false, writeBack, faults);
      && r.executed == h.executed && path in r.files
      && Record(r.logs[|r.logs| - 1]).level == Logger.Error
  {
    var r := WriteStep(h, title, path, content, platform, false, writeBack, faults);
    if faults.write.Some? {
      assert r.logs[|r.logs| - 1] == WriteFailed(title, faults.write.value);
    } else {
      assert r.logs[|r.logs| - 1] == PermissionFailed(title, faults.permission.value);
    }
  }

  /** The host `run_script` acts on: its file table, the log it writes and the scripts it ran. */
  class Host {
    var files: Files
    var logs: seq<Note>
    var executed: seq<string>

    constructor (files0: Files)
      ensures files == files0 && logs == [] && executed == []
    {
      files := files0;
      logs := [];
      executed := [];
    }

    function State(): HostState
      reads this
    {
      HostState(files, logs, executed)
    }

    method Log(n: Note)
      modifies this
      ensures State() == Logged(old(State()), n)
    {
      logs := logs + [n];
    }

    /** `run_script`, step by step with its early returns. */
    method RunScriptWith(title: string, script: Option<Script>, platform: Platform, tempDir: string, uuid: string,
                         opts: OpenOptions, writeBack: bool, faults: Faults)
      modifies this
      ensures State() == RunScriptSpec(old(State()), title, script, platform, tempDir, uuid, opts, writeBack, faults)
    {
      if script.None? {
        return;
      }
      var s := script.value;
      Log(RunTag(title, s.tag));
      var path := TempPath(platform, tempDir, title, uuid);
      var created := Open(files, path, opts);
      if created.Failure? {
        Log(CreateFailed(title, created.error));
        return;
      }
      files := created.value;
      WriteAndRun(title, path, s.content, platform, opts.append, writeBack, faults);
    }

    /** The write, the unix permission step, then the spawn and the removal. */
    method WriteAndRun(title: string, path: string, content: string, platform: Platform,
                       append: bool, writeBack: bool, faults: Faults)
      requires path in files
      modifies this
      ensures State() == WriteStep(old(State()), title, path, content, platform, append, writeBack, faults)
    {
      if faults.write.Some? {
        Log(WriteFailed(title, faults.write.value));
        return;
      }
      files := files[path := files[path].(content := WriteFromStart(files[path].content, content, append))];
      if platform == Unix {
        if faults.permission.Some? {
          Log(PermissionFailed(title, faults.permission.value));
          return;
        }
        if writeBack {
          files := files[path := files[path].(executable := true)];
        }
      }
      SpawnAndRemove(title, path, platform, faults);
    }

    /** `Command::new(path).output()`, its log line, then `remove_file`. */
    method SpawnAndRemove(title: string, path: string, platform: Platform, faults: Faults)
      requires path in files
      modifies this
      ensures State() == RunStep(old(State()), title, path, platform, faults)
    {
      var spawned := Spawn(files, path, platform, faults.exec);
      match spawned {
        case Success(o) =>
          executed := executed + [files[path].content];
          Log(RunOutput(title, o));
        case Failure(e) =>
          Log(RunFailed(title, e));
      }
      if faults.remove.Some? {
        Log(RemoveFailed(title, faults.remove.value));
      } else {
        files := files - {path};
      }
    }

    /**
     * `run_before_start_script` and its three siblings: the hook's own label and script,
     * run by `run_script` as written. The open is always refused, so a configured hook
     * only logs its tag and the failed creation: no file appears and nothing is run.
     */
    method RunHook(scripts: Scripts, t: ScriptRunType, platform: Platform, tempDir: string, uuid: string, faults: Faults)
      requires t != Disabled
      modifies this
      ensures State() == RunScriptSpec(old(State()), HookLabel(t), ScriptFor(scripts, t), platform, tempDir, uuid,
                                       AsWrittenOptions, false, faults)
      ensures files == old(files) && executed == old(executed)
      ensures logs == old(logs) + NeverRunNotes(HookLabel(t), ScriptFor(scripts, t))
    {
      ghost var h := State();
      RunScriptWith(HookLabel(t), ScriptFor(scripts, t), platform, tempDir, uuid, AsWrittenOptions, false, faults);
      HookNeverRuns(h, HookLabel(t), ScriptFor(scripts, t), platform, tempDir, uuid, faults);
    }

    /**
     * The same hook run by the corrected runner (write access, mode written back), which
     * `FixedHookRunsAndCleansUp` shows runs the script and restores the files.
     */
    method FixedRunHook(scripts: Scripts, t: ScriptRunType, platform: Platform, tempDir: string, uuid: string,
                        faults: Faults)
      requires t != Disabled
      modifies this
      ensures State() == RunScriptSpec(old(State()), HookLabel(t), ScriptFor(scripts, t), platform, tempDir, uuid,
                                       FixedOptions, true, faults)
    {
      RunScriptWith(HookLabel(t), ScriptFor(scripts, t), platform, tempDir, uuid, FixedOptions, true, faults);
    }
  }
}
