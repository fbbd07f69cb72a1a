# boxmgr core in Dafny

boxmgr is a small daemon that supervises one sing-box core process. It keeps its
state in an sqlite database: configurations, lifecycle scripts and a key/value table.
It starts the core with the active configuration, rewritten so that the core exposes
its control API (the "clash API") and logs quietly to standard output. It pumps the
core's output into a bounded log backlog fanned out to listeners. It polls the control
API for traffic, speed and memory figures. It runs user scripts at four points of the
core's life: before start, after start, before close and after close. An HTTP manager
guards all of this with a shared secret.

This project models that core and proves properties of the model. Modules follow the
source files:

- `LogQueue`: the bounded, broadcasting log backlog (`src/service/log_queue.rs`), a class.
- `ServiceStatus`: the shared status board and the three metric callbacks.
- `ConfigCheck`: `check_config`, the rewriting of the stored configuration document.
- `CoreVersion`: reading the core's version from `<core> version`.
- `ServiceLaunch`: `ServiceInner::new`, the fallible stages of one start of the core.
- `ChildHandle`: the child task `child_handle` and its `stop_process`.
- `Supervisor`: `Service`, the slot holding at most one running instance.
- `ClashApi`: the control-API URLs and the websocket reading loop.
- `HookScript` and `FsModel`: `ScriptHandler::run_script`, with the file system it writes to.
- `ConfigTable`, `ScriptTable`, `KvTable`, `CommonSettings`, `IdFilter` and `DbErrors`: the database layer.
- `Logger`: the log levels and the log line format.
- `ManagerOptions`: the manager's options.
- `HttpGate`: the manager's HTTP front, i.e. the authorisation middleware and the web UI path.
- `Strings`, `Json` and `Wrappers`: the parts of Rust's `str`, of JSON values and of `Result`/`Option` the model needs.

Stateful entities are classes with `modifies` clauses. Each class method is tied by its
`ensures` to a specification function on the old state, and the lemmas state the
promised properties about those functions:

- `LogQueue.LogQueue`, `ServiceStatus.Status` and `Supervisor.Service`;
- the three database tables, each held as a map from primary key to row;
- `HookScript.Host`, the file system, log and executed scripts a hook touches.

Loops in the source are methods with loop invariants:

- the log listener;
- the version lines;
- the child task's event loop;
- the control-API reading loop;
- the id filters;
- the table scans.

Everything outside the process, such as the database driver, the process spawn, the
pipes, the clock and UUIDs, is a parameter: the model is given what the outside world
answers and computes what the code does with it.

## Model

| member | source | states |
|---|---|---|
| LogQueue.LogQueue.constructor | src/service/log_queue.rs:15-21 | The backlog and the broadcast history start empty, with the given size bound and a capacity at least as large. |
| LogQueue.LogQueue.PushData | src/service/log_queue.rs:23-31 | Below capacity the entry is appended; at capacity the oldest entry is evicted first. The size bound is kept, and the entry is broadcast after it is stored. |
| LogQueue.PushBounded | src/service/log_queue.rs:25-29 | One push never lets the backlog exceed its capacity. It appends when there is room and evicts exactly the front entry when full. |
| LogQueue.PushesKeepLast | src/service/log_queue.rs:23-31 | After any run of pushes, a backlog holding the last entries it was given holds the last min(n, cap) entries of everything pushed, in order. |
| LogQueue.PushesFromEmpty | src/service/log_queue.rs:23-31 | From empty, the backlog is the last min(k, cap) pushed entries in push order, and all of them when no more than cap were pushed. |
| LogQueue.LogQueue.Subscribe | src/service/log_queue.rs:33-39 | The new listener starts at the end of the broadcast history, so what its receiver yields is exactly what is pushed from then on (nothing yet). |
| LogQueue.LogQueue.Listen | src/service/log_queue.rs:48-60 | Its receiver yields, before its first error, values broadcast since the listener subscribed. The delivery is then the backlog snapshot followed by those values, cut at the first rejected send. It is always a prefix of the snapshot followed by the history since subscribing, and with a receiver that never fails and an open sink it is exactly that. |
| LogQueue.Forward | src/service/log_queue.rs:49-59 | The two loops of `listen` forward the snapshot, then the received values, stopping at the first rejected send or receive error, as `Delivered` specifies. |
| LogQueue.LogQueue.DeliveredWithinHistory | src/service/log_queue.rs:33-60 | Nothing is delivered that is not in the snapshot or broadcast since the listener subscribed, and the order is snapshot first, then broadcast order. |
| LogQueue.DeliveredOrder | src/service/log_queue.rs:48-60 | What is forwarded is a prefix of backlog followed by live entries. The whole backlog comes first when the sink accepts at least that many, and nothing beyond what the sink accepts is forwarded. |
| LogQueue.FeedDeliversAll | src/service/log_queue.rs:48-60 | With an open sink and a receiver that never fails, the listener gets the backlog snapshot and then exactly the entries broadcast since it subscribed, in order, and keeps waiting. |
| LogQueue.PushedBetweenArriveTwice | src/service/log_queue.rs:33-49 | The snapshot is taken after `subscribe`, so an entry pushed in between is delivered twice: once from the snapshot and once from the receiver. |
| ServiceStatus.Status.constructor | src/service/service.rs:45-59 | The default status: not running, empty tag and version, all counters zero. |
| ServiceStatus.Status.Notify | src/service/state.rs:18-20 | A wake-up is counted, and no field changes. |
| ServiceStatus.Status.CleanData | src/service/service.rs:35-42 | All metric counters return to zero; the running flag, tag and version stay. |
| ServiceStatus.Status.SetRunning | src/service/service.rs:270 | Only the running flag changes. |
| ServiceStatus.Status.SetRunningConfig | src/service/service.rs:76-77 | Only the running configuration tag changes. |
| ServiceStatus.Status.SetCoreVersion | src/service/service.rs:103-104 | Only the core version changes. |
| ServiceStatus.ConnectionCount | src/service/service.rs:439-441 | The connection count is the length of the connection list, and zero without one. |
| ServiceStatus.Status.OnTraffic | src/service/service.rs:438-450 | The traffic callback sets the counters it reports, leaves the tag and version alone, and wakes observers once. |
| ServiceStatus.Status.OnSpeed | src/service/service.rs:463-471 | The speed callback sets the two rates, leaves everything else alone, and wakes observers once. |
| ServiceStatus.Status.OnMemory | src/service/service.rs:484-487 | The memory callback sets the memory figure, leaves everything else alone, and wakes observers once. |
| ServiceStatus.CallbacksCommute | src/service/service.rs:438-487 | The three callbacks touch disjoint counters, so they commute in any order. |
| ServiceStatus.CallbacksOverwrite | src/service/service.rs:438-487 | Each callback overwrites its own counters, so only the last report of each kind counts. |
| ConfigCheck.QuietLog | src/service/service.rs:197-201 | The `log` object loses `disabled`, gains `output` = "stdout" and `timestamp` = false, and keeps every other field. |
| ConfigCheck.QuietLogIdempotent | src/service/service.rs:197-201 | Quieting the log twice is quieting it once. |
| ConfigCheck.WithListen | src/service/service.rs:208-218 | A string `external_controller` is kept and is the listen address; otherwise it is set to 127.0.0.1:9090. |
| ConfigCheck.InitClashApi | src/service/service.rs:202-231 | The `clash_api` object gains the controller and, when asked, a secret. An existing string secret is kept, a missing one is the UUID without dashes, and no secret is reported otherwise. Every other field is kept. |
| ConfigCheck.InitClashApiIdempotent | src/service/service.rs:202-231 | Re-running the closure on its own output, even with another UUID, changes nothing. |
| ConfigCheck.FreshInit | src/service/service.rs:241-250 | A missing `clash_api` becomes one holding only the default controller and the fresh secret. |
| ConfigCheck.ExperimentalReplaced | src/service/service.rs:241-250 | A missing or non-object `experimental` is replaced by one that holds only a fresh `clash_api`. |
| ConfigCheck.SecretCases | src/service/service.rs:219-239 | An existing `clash_api` keeps its secret or has none. A missing one gets the fresh secret and the default controller. |
| ConfigCheck.ListenIsConfigured | src/service/service.rs:206-251 | The checked document always has `experimental.clash_api`. Its controller is the returned listen address, and its secret, when there is one, is the returned secret. |
| ConfigCheck.OnlyLogAndApiChange | src/service/service.rs:197-251 | Only `log` and `experimental.clash_api` change. Every other top-level and `experimental` field is kept, and a non-object `log` is left alone. |
| ConfigCheck.CheckConfigIdempotent | src/service/service.rs:192-252 | Checking a checked document again, with any UUID, gives the same document, address and secret. |
| ConfigCheck.CheckConfigInPlace | src/service/service.rs:192-252 | The in-place rewrite yields an object with the address and secret of the specified check. |
| CoreVersion.ParseVersionOutput | src/service/service.rs:100-115 | The version becomes that of the last line starting with "sing-box version", or stays as it was. Each such line wakes observers once, and nothing else changes. |
| CoreVersion.LastVersionIsLastLine | src/service/service.rs:100-106 | The version kept is the one on the last version line. |
| CoreVersion.NoVersionLineKeeps | src/service/service.rs:100-106 | Output without a version line changes neither the version nor the wake-up count. |
| CoreVersion.VersionOfLine | src/service/service.rs:101-103 | A line "sing-box version v", possibly indented, is a version line whose version is v. |
| CoreVersion.TrimEach | src/service/service.rs:107-113 | Each tag piece is trimmed and none is lost. |
| ServiceLaunch.LaunchSpec | src/service/service.rs:69-190 | A start goes through the stages in order and stops at the first failure. It succeeds exactly when every stage is reached. |
| ServiceLaunch.Launch | src/service/service.rs:69-190 | The start on the shared status and hook host matches the specification. The tag is recorded and announced. Once their stages are reached, the version is read and the before-start hook is run as written: a configured hook logs only its tag and the failed creation. Before those stages neither changes, and no start changes a file or runs a script. |
| ServiceLaunch.Prepare | src/service/service.rs:78-99 | The stages from the hook lookup to running the version probe either fail exactly as the specification says, before the before-start stage, or hand on the hooks, the checked configuration and its controller and secret. |
| ServiceLaunch.StartCore | src/service/service.rs:100-189 | After the probe, the version lines update the status. The before-start hook then runs as written, changing no file and running nothing. The spawn and stdin outcomes decide the start as the specification says. |
| ServiceLaunch.BeforeStartPrecedesSpawn | src/service/service.rs:128-151 | In every start, the before-start stage is reached exactly when every earlier stage passed. The spawn is attempted exactly when that stage was reached, so a start that reaches the spawn has the hook's effect on its host. The configuration is written only after a successful spawn, and the tasks start only after a successful write. |
| ServiceLaunch.LaunchNeverRunsHook | src/service/service.rs:128 | As written, no start runs a hook script or leaves a file behind, because the before-start hook's open is always refused. |
| ServiceLaunch.HookLookupFailureFirst | src/service/service.rs:78 | A failed hook lookup ends the start with a "get ..." error before the configuration is looked at. |
| ServiceLaunch.SpawnFailureAfterHook | src/service/service.rs:128-136 | A spawn failure comes after the before-start hook ran, and no task is started. |
| ServiceLaunch.CoreCheckedOnlyOnUnix | src/service/service.rs:84-92 | An unreadable core stops the start only on unix. |
| ServiceLaunch.LaunchedInstance | src/service/service.rs:80-189 | A started instance holds the checked configuration, its controller, secret and hooks. |
| ChildHandle.LineEndingDropped | src/service/service.rs:287 | A pumped line loses its line ending and is logged as "[time] stream: line". |
| ChildHandle.ReadEffects | src/service/service.rs:282-311 | An empty or failed read does nothing. A read line runs the after-start hook exactly when it carries the readiness marker, and never runs another hook. |
| ChildHandle.FirstTerminal | src/service/service.rs:280-325 | The loop ends at the first exit or cancellation, if there is one. |
| ChildHandle.StopProcess | src/service/service.rs:336-398 | Without a pid only an error is logged. On unix the process is killed exactly when SIGTERM fails or it outlives the wait; on windows when it outlives the wait; elsewhere it is killed at once. |
| ChildHandle.Trace | src/service/service.rs:261-334 | The task has ended exactly when some exit or cancellation occurred. |
| ChildHandle.RunChildHandle | src/service/service.rs:261-334 | The event loop produces exactly the specified effects. |
| ChildHandle.TraceFrame | src/service/service.rs:270-333 | The task begins by setting running, notifying and logging the start, and an ended task finishes with the closing steps. |
| ChildHandle.AfterStartPerStartedLine | src/service/service.rs:282-311 | Before the end, the after-start hook runs once per readiness line, and the before-close hook never runs. |
| ChildHandle.HookCounts | src/service/service.rs:282-323 | The after-start hook runs once per readiness line before the end. The before-close hook runs once when the task is cancelled, and otherwise never. |
| ChildHandle.CancelStopsAfterHook | src/service/service.rs:318-323 | On cancellation the before-close hook runs first, and then the process is stopped. |
| ChildHandle.EndedTaskNotRunning | src/service/service.rs:326-333 | An ended task leaves the status not running. |
| ChildHandle.RunningTaskRuns | src/service/service.rs:270-325 | A task still in its loop leaves the status running. |
| ChildHandle.ApplyToStatus | src/service/service.rs:270-333 | The task's status effects set the running flag as the trace says and count its wake-ups, and nothing else changes. |
| ClashApi.EndpointType | src/service/clash_api.rs:16-20 | A path is recognised only as the endpoint it is. |
| ClashApi.EndpointInverse | src/service/clash_api.rs:16-20 | Each endpoint's path is recognised as that endpoint, and paths start with "/" and have no query. |
| ClashApi.PathQueryRoundTrip | src/service/clash_api.rs:16-25 | From its path and token, a URL's endpoint and secret are recovered. |
| ClashApi.CreateUrlRoundTrip | src/service/clash_api.rs:14-26 | From a control-API URL, its endpoint, address and secret are recovered. |
| ClashApi.CreateUrlQuery | src/service/clash_api.rs:14-26 | The URL is ws://listen followed by the endpoint. It has a query exactly when there is a secret, and then ends with "?token=secret". |
| ClashApi.FirstStop | src/service/clash_api.rs:55-81 | The reading loop stops at the first cancellation or receive error, and not before. |
| ClashApi.Handle | src/service/clash_api.rs:28-83 | A cancelled or failed connect calls no callback, the failure being logged. Once connected, each text frame before the first stop calls the callback. The socket is closed when the loop stops, and a receive error is logged. |
| CommonSettings.CorePathOf | src/database/common.rs:46-61 | The core path is read only from a string value under "core_path". |
| CommonSettings.AutoStartOf | src/database/common.rs:96-111 | Auto start is on only when "auto_start" holds true. |
| CommonSettings.SetCorePathSpec | src/database/common.rs:11-43 | An empty path is refused; otherwise "core_path" holds it, and every other key is kept. |
| CommonSettings.SetAutoStartSpec | src/database/common.rs:64-93 | "auto_start" holds the flag, and every other key is kept. |
| CommonSettings.CorePathRoundTrip | src/database/common.rs:11-61 | A stored core path reads back, and storing it again changes nothing. |
| CommonSettings.AutoStartRoundTrip | src/database/common.rs:64-111 | The stored flag reads back. |
| CommonSettings.SettersIndependent | src/database/common.rs:7-8 | Setting the core path leaves auto start alone, and the other way round. |
| CommonSettings.MistypedPathReadsNone | src/database/common.rs:54-60 | A non-string core path reads as no path. |
| CommonSettings.SetCorePath | src/database/common.rs:11-43 | The table changes as specified, and the result is the one specified. |
| CommonSettings.GetCorePath | src/database/common.rs:46-61 | The core path read is the stored one. |
| CommonSettings.SetAutoStart | src/database/common.rs:64-93 | The table changes as specified. |
| CommonSettings.GetAutoStart | src/database/common.rs:96-111 | The flag read is the stored one. |
| ConfigTable.CheckDocument | src/database/config.rs:43-47 | Only an object is accepted. Null is a missing document, and anything else is an invalid one. |
| ConfigTable.NewId | src/database/config.rs:48-50 | A given id is kept; a missing one is a dash-free UUID. |
| ConfigTable.AddConfigSpec | src/database/config.rs:36-74 | A tag and an object document are required, and each missing one gives its own error. The add succeeds exactly when neither the id nor the tag is taken. On failure the table is unchanged; on success it gains exactly the new row. |
| ConfigTable.GetConfigSpec | src/database/config.rs:77-89 | A missing id and an unknown id are told apart, and a known id gives its row. |
| ConfigTable.ModifyConfigSpec | src/database/config.rs:92-112 | It succeeds exactly when the id exists, any new document is an object, and any new tag is free. On success only that row changes, to the patched row; on failure nothing changes. An unknown id fails with RecordNotFound when the patch sets nothing and with RecordNotUpdated otherwise. |
| ConfigTable.DeleteConfigSpec | src/database/config.rs:115-144 | A missing id is refused; otherwise the row is gone, even if it never existed. |
| ConfigTable.BulkDeleteSpec | src/database/config.rs:147-167 | Exactly the listed rows are removed, and the rest are unchanged. |
| ConfigTable.ClearActive | src/database/config.rs:186-191 | Every row is marked inactive, and nothing else changes. |
| ConfigTable.Activate | src/database/config.rs:193-198 | Only the chosen row is marked active, and nothing else changes. |
| ConfigTable.SetActiveExactlyOne | src/database/config.rs:180-208 | Afterwards a row is active exactly when it is the chosen one, and no other field changes. |
| ConfigTable.SetActiveConsistent | src/database/config.rs:180-208 | Activation keeps every row stored under its own id. |
| ConfigTable.AddPreserves | src/database/config.rs:36-74 | Adding keeps rows under their ids, and an inactive add keeps at most one active row. |
| ConfigTable.ModifyPreserves | src/database/config.rs:92-112 | Modifying keeps rows under their ids and keeps at most one active row. |
| ConfigTable.DeletePreserves | src/database/config.rs:115-167 | Deleting one or many rows keeps both table invariants. |
| ConfigTable.AddTwiceRejected | src/database/config.rs:53-60 | The same configuration cannot be added twice. |
| ConfigTable.ConfigStore.constructor | src/database/config.rs:8-17 | The table starts empty. |
| ConfigTable.ConfigStore.AddConfig | src/database/config.rs:36-74 | The table and the result are as specified. |
| ConfigTable.ConfigStore.GetConfig | src/database/config.rs:77-89 | The result is as specified. |
| ConfigTable.ConfigStore.ModifyConfig | src/database/config.rs:92-112 | The table and the result are as specified. |
| ConfigTable.ConfigStore.DeleteConfig | src/database/config.rs:115-144 | The table and the result are as specified. |
| ConfigTable.ConfigStore.BulkDeleteConfig | src/database/config.rs:147-167 | The table is as specified. |
| ConfigTable.ConfigStore.SetActiveConfig | src/database/config.rs:180-208 | Exactly the chosen row is active afterwards. |
| ConfigTable.ConfigStore.GetActiveConfig | src/database/config.rs:211-219 | There is no result exactly when no row is active. A result is an active stored row, and the only one when at most one is active. |
| IdFilter.BuildFilter | src/database/config.rs:154-160 | The OR of id equalities matches exactly the listed ids. |
| DbErrors.DisplayPrefixes | src/database/error.rs:45-64 | Each error's text starts with its table's prefix, and a not-found text ends with the missing id or key. |
| DbErrors.NotFoundInjective | src/database/error.rs:54 | Two "config not found" texts are equal only for the same id. |
| FsModel.OpenCheck | src/service/script.rs:70-75 | Opening is refused with InvalidInput exactly for the option combinations Rust's std rejects, such as creating without write access. |
| FsModel.Open | src/service/script.rs:70-81 | An accepted open makes the path exist and leaves other files alone; a created file is empty. |
| FsModel.WriteFromStart | src/service/script.rs:82 | A write from the start puts the data at the front, and the file keeps its length if it was longer. |
| FsModel.Remove | src/service/script.rs:129-131 | Removal succeeds exactly for an existing file and removes only it. |
| FsModel.CreateWithoutWriteRejected | src/service/script.rs:70-75 | Create without write or append is always refused as InvalidInput. |
| FsModel.CreateWithWriteAccepted | src/service/script.rs:70-75 | Create with write is accepted and makes an empty file. |
| FsModel.SetExtensionAppends | src/service/script.rs:50-56 | A plain name gets ".ext" appended. |
| FsModel.SetExtensionIdempotent | src/service/script.rs:50-56 | Setting the same extension twice is setting it once. |
| FsModel.JoinBelow | src/service/script.rs:67-68 | A relative name joins below the directory, with one separator. |
| HookScript.LoadScripts | src/service/script.rs:16-48 | The four lookups are made in order, and the first failure gives its own message. Otherwise the four scripts are kept. |
| HookScript.ScriptFor | src/service/script.rs:135-169 | Each lifecycle point runs its own script. |
| HookScript.TempNameShape | src/service/script.rs:65-66 | The file name is the title with spaces replaced, an underscore, and the UUID without dashes. |
| HookScript.TempPathShape | src/service/script.rs:65-68 | The file lies in the temporary directory, with ".sh" on unix and ".bat" on windows. |
| HookScript.HookNamesDistinct | src/service/script.rs:135-169 | Different lifecycle points never share a file name. |
| HookScript.Summary | src/service/script.rs:113-121 | The log line is "exit code: " and the status, then "; stdout: " and stdout when it is non-empty, then "; stderr: " and stderr when it is non-empty. Each of the four cases is stated exactly. |
| HookScript.Record | src/service/script.rs:64-130 | Only the start and output lines are debug records; failures are errors. |
| HookScript.Spawn | src/service/script.rs:111 | A missing file is NotFound, a non-executable one on unix is PermissionDenied, and otherwise the process result is returned. |
| HookScript.RemoveStep | src/service/script.rs:129-131 | Removal deletes only the temporary file, and a failure is only logged. |
| HookScript.Host.SpawnAndRemove | src/service/script.rs:111-131 | The host's state changes as the spawn-and-remove step specifies. |
| HookScript.Host.WriteAndRun | src/service/script.rs:82-131 | The host's state changes as the write step specifies. |
| HookScript.RunStep | src/service/script.rs:111-131 | Running adds the content to the executed scripts exactly when the spawn succeeds. The file is then removed unless the removal fails. |
| HookScript.WriteStep | src/service/script.rs:82-131 | A failed write or permission change returns early, runs nothing and leaves the file. At most one script runs. |
| HookScript.NoScriptNoEffect | src/service/script.rs:63 | Without a script nothing happens. |
| HookScript.RunScriptFrame | src/service/script.rs:62-133 | A hook touches only its own temporary file, always logs, and runs at most its own script. |
| HookScript.AsWrittenHookNeverRuns | src/service/script.rs:70-81 | As written, every configured hook only logs its start and "create failed: Invalid argument", and nothing runs. |
| HookScript.HookNeverRuns | src/service/script.rs:62-75 | Configured or not, a hook run as written leaves files and executed scripts alone, and logs nothing or exactly the tag and the failed creation. |
| HookScript.FixedOpenReachesWrite | src/service/script.rs:70-81 | With write access the file is created empty, and the write stage is reached. |
| HookScript.ModeNotWrittenBackFailsSpawn | src/service/script.rs:107-108 | On unix, when the changed mode is not written back, the spawn fails with PermissionDenied. |
| HookScript.FixedHookRunsAndCleansUp | src/service/script.rs:62-133 | With both fixes and no faults, the script runs exactly once, its output is logged, and the file system is back as it was. |
| HookScript.SpawnReachedRemovesFile | src/service/script.rs:111-131 | Once the spawn is reached, the temporary file is removed whatever the process did. |
| HookScript.EarlyReturnLeaksFile | src/service/script.rs:77-105 | A write or permission failure leaves the temporary file behind, logs an error and runs nothing. |
| HookScript.Host.RunScriptWith | src/service/script.rs:62-133 | The host's files, logs and executed scripts change as specified. |
| HookScript.Host.RunHook | src/service/script.rs:135-169 | A lifecycle point runs its own script under its own title, through `run_script` as written. Files and executed scripts are unchanged, and a configured hook logs only its tag and the failed creation. |
| HookScript.Host.FixedRunHook | src/service/script.rs:135-169 | The same hook under the corrected runner (write access, mode written back): the host changes as the corrected run specifies. |
| HttpGate.StripBearer | src/manager/http.rs:285 | As written, every leading "Bearer " is stripped; the corrected form strips exactly one when present. |
| HttpGate.QueryPair | src/manager/http.rs:307 | A query piece splits at its first '=', and a piece without one gives two empty strings. |
| HttpGate.QueryPairs | src/manager/http.rs:303-310 | There is one pair per '&'-separated piece, in order. |
| HttpGate.SecretFound | src/manager/http.rs:311-317 | A secret is found exactly when some pair is ("secret", secret). |
| HttpGate.Gate | src/manager/http.rs:276-333 | "/check_secret" is always answered directly, and only with 200 or 401. |
| HttpGate.CheckSecretAnswers | src/manager/http.rs:280-293 | "/check_secret" answers 200 exactly when the header bears the secret, and otherwise 401. |
| HttpGate.WebsocketByQuery | src/manager/http.rs:301-319 | A websocket upgrade is forwarded exactly when the query holds ("secret", secret), and the Authorization header does not matter. |
| HttpGate.HeaderDecides | src/manager/http.rs:322-331 | Any other request is forwarded exactly when its header is UTF-8 and bears the secret; a missing or non-UTF-8 header gets 401. |
| HttpGate.DoubleBearerAccepted | src/manager/http.rs:325 | As written, "Bearer Bearer s" also authorises the secret s. |
| HttpGate.BearerSecretLockedOut | src/manager/http.rs:322-331 | As written, no header ever authorises a secret that begins with "Bearer ". |
| HttpGate.FixedAcceptsEverySecret | src/manager/http.rs:279-331 | With one prefix stripped, the documented header "Bearer <secret>" authorises every secret. |
| HttpGate.AssetPath | src/manager/http.rs:245-248 | The asset path has no leading '/' and is never empty, the bare root giving index.html. |
| HttpGate.AssetPathIdempotent | src/manager/http.rs:245-248 | Normalising a normalised path changes nothing. |
| HttpGate.RootServesIndex | src/manager/http.rs:245-248 | Any run of slashes serves index.html. |
| HttpGate.WebUi | src/manager/http.rs:249-255 | A known asset is served under its path; anything else redirects to "/". |
| HttpGate.Combine | src/manager/http.rs:76-81 | The server succeeds only when both listeners do. A single failure is passed on, and two are joined after "local listen: ". |
| KvTable.SetKvSpec | src/database/kv.rs:29-68 | An empty key is refused; otherwise the key holds the value, and every other key is kept. |
| KvTable.GetKvSpec | src/database/kv.rs:71-84 | A missing key and an unknown key are told apart, and a known key gives its value. |
| KvTable.DeleteKvSpec | src/database/kv.rs:87-113 | An empty key is refused; otherwise the key is gone, and deleting an unknown key is no error. |
| KvTable.SetThenGet | src/database/kv.rs:29-84 | A stored value reads back. |
| KvTable.SetLeavesOthers | src/database/kv.rs:29-84 | Setting one key does not change what another reads. |
| KvTable.DeleteThenGet | src/database/kv.rs:71-113 | A deleted key reads as not found, and deleting again changes nothing. |
| KvTable.SetIdempotent | src/database/kv.rs:29-68 | Setting the same pair twice is setting it once. |
| KvTable.KvStore.constructor | src/database/kv.rs:6-12 | The table starts empty. |
| KvTable.KvStore.SetKv | src/database/kv.rs:29-68 | The table and the result are as specified. |
| KvTable.KvStore.GetKv | src/database/kv.rs:71-84 | The result is as specified. |
| KvTable.KvStore.DeleteKv | src/database/kv.rs:87-113 | The table and the result are as specified. |
| KvTable.KvStore.ListKv | src/database/kv.rs:116-123 | Every stored pair is listed once, with its value. |
| Logger.ParseLevel | src/log/logger.rs:9-20 | A level name is accepted exactly when its lower-case form is a known spelling, and otherwise an "invalid log level" error is returned. |
| Logger.LevelRoundTrip | src/log/logger.rs:10-52 | Every level's printed name parses back to it. |
| Logger.ParseCaseInsensitive | src/log/logger.rs:10 | Parsing ignores ASCII case. |
| Logger.AnyCaseParses | src/log/logger.rs:10-16 | Every spelling whose ASCII lower-casing is a level's name parses to that level, and every spelling of "warning" parses to Warn. |
| Logger.EnabledMonotone | src/log/logger.rs:55-57 | If a record is enabled, a more severe record is too, and so is the same record under a more verbose setting. |
| Logger.EnabledExtremes | src/log/logger.rs:55-57 | Errors are always logged, and trace records only at trace. |
| Logger.FormatLineShape | src/log/logger.rs:59-65 | A line is "[time] [LEVEL] message", trimmed at the end and ending in one newline. |
| ManagerOptions.SelectOutput | src/manager/manager.rs:43-51 | None, "stdout" and "" select stdout, "stderr" selects stderr and "off" selects nothing. Any other value opens that file or fails with the open error. |
| ManagerOptions.Convert | src/manager/manager.rs:42-62 | The conversion fails exactly when the output selection does, and with its error. |
| ManagerOptions.ConvertCopies | src/manager/manager.rs:52-61 | Every other option is copied unchanged. |
| ManagerOptions.KeywordsNeverOpen | src/manager/manager.rs:43-50 | A keyword never opens a file, so it cannot fail. |
| ManagerOptions.DatabaseUrl | src/manager/manager.rs:123-129 | A configured URL is used verbatim. |
| ManagerOptions.DefaultDatabaseUrl | src/manager/manager.rs:123-129 | The default is sqlite://<data dir>/data.db?mode=rwc. |
| ManagerOptions.DefaultDatabaseUrlShape | src/manager/manager.rs:123-129 | The default is an sqlite URL to data.db that is opened read-write-create. |
| ScriptTable.ToU8 | src/database/script.rs:17-27 | Each lifecycle point has a code below 5, and 0 means disabled. |
| ScriptTable.ToU8Injective | src/database/script.rs:17-27 | Different points have different codes. |
| ScriptTable.NewId | src/database/script.rs:64-66 | A given id is kept; a missing one is a dash-free UUID. |
| ScriptTable.AddScriptSpec | src/database/script.rs:57-90 | A tag is required. The add succeeds exactly when neither the id nor the tag is taken; on failure the table is unchanged, and on success it gains exactly the new row. |
| ScriptTable.GetScriptSpec | src/database/script.rs:93-105 | A missing id and an unknown id are told apart, and a known id gives its row. |
| ScriptTable.ModifyScriptSpec | src/database/script.rs:108-121 | It succeeds exactly when the id exists and any new tag is free. Only that row changes, and the lifecycle point is never changed by it. An unknown id fails with RecordNotFound when the patch sets nothing and with RecordNotUpdated otherwise. |
| ScriptTable.DeleteScriptSpec | src/database/script.rs:124-153 | A missing id is refused; otherwise the row is gone. |
| ScriptTable.BulkDeleteSpec | src/database/script.rs:156-176 | Exactly the listed rows are removed. |
| ScriptTable.CleanSpec | src/database/script.rs:189-203 | Only the chosen script loses its lifecycle point. |
| ScriptTable.Release | src/database/script.rs:215-223 | Every holder of the point is released, and nothing else changes. |
| ScriptTable.SetRunTypeExact | src/database/script.rs:207-245 | Afterwards exactly the chosen script holds the point. Scripts at other points are untouched, and only lifecycle points change. |
| ScriptTable.SetKeepsHolders | src/database/script.rs:207-245 | At most one script per point is kept by setting a point. |
| ScriptTable.RemovalsKeepHolders | src/database/script.rs:124-203 | At most one script per point is kept by cleaning and deleting. |
| ScriptTable.EditsKeepHolders | src/database/script.rs:57-121 | At most one script per point is kept by modifying and by adding a script with no point. |
| ScriptTable.OnePointPerScript | src/database/script.rs:225-233 | Moving a script to a second point takes it off the first. |
| ScriptTable.ScriptStore.constructor | src/database/script.rs:29-38 | The table starts empty. |
| ScriptTable.ScriptStore.AddScript | src/database/script.rs:57-90 | The table and the result are as specified. |
| ScriptTable.ScriptStore.GetScript | src/database/script.rs:93-105 | The result is as specified. |
| ScriptTable.ScriptStore.ModifyScript | src/database/script.rs:108-121 | The table and the result are as specified. |
| ScriptTable.ScriptStore.DeleteScript | src/database/script.rs:124-153 | The table and the result are as specified. |
| ScriptTable.ScriptStore.BulkDeleteScript | src/database/script.rs:156-176 | The table is as specified. |
| ScriptTable.ScriptStore.CleanScriptType | src/database/script.rs:189-203 | The table is as specified. |
| ScriptTable.ScriptStore.SetRunTypeScript | src/database/script.rs:207-245 | The table is as specified. |
| ScriptTable.ScriptStore.GetRunTypeScript | src/database/script.rs:249-261 | There is no result exactly when no script holds the point. A result is a stored holder, and the only one when the table keeps one holder per point. |
| Supervisor.StartFailureReadable | src/service/error.rs:23-33 | Two start-failure texts are equal only for the same detail. |
| Supervisor.PrepareInfo | src/service/service.rs:537-550 | The core path is read before the configuration. A missing value and a failed read give different errors, and both values are returned when present. |
| Supervisor.CorePathBeforeConfig | src/service/service.rs:539-547 | Without a core path the restart fails with "core path is not set", whatever the configuration. |
| Supervisor.ConfigNotSetReported | src/service/service.rs:546 | Without an active configuration the restart fails with "config is not set". |
| Supervisor.RestartSpec | src/service/service.rs:564-584 | Every restart failure is reported as a start failure. |
| Supervisor.RestartSucceeds | src/service/service.rs:564-584 | A restart succeeds exactly when both values are present and the start succeeds, and then the instance is the started one. |
| Supervisor.StartedConfigChecked | src/service/service.rs:573-582 | A restarted instance runs the checked configuration, whose controller is its listen address. |
| Supervisor.CancelEnds | src/service/service.rs:254-259 | Once cancelled, the child task always ends. |
| Supervisor.NewService | src/service/service.rs:505-515 | The slot starts empty and the status at its default (not running, no tag or version, zero counters), with an empty log backlog of size 16. |
| Supervisor.Service.CancelAndWait | src/service/service.rs:254-259 | The child task is cancelled and awaited. The status is then not running, with zeroed counters and the task's wake-ups plus one. |
| Supervisor.Service.StopService | src/service/service.rs:556-562 | The slot is emptied and the call always succeeds. A running instance's task is stopped; with none, nothing changes. |
| Supervisor.Service.RestartService | src/service/service.rs:564-584 | Any running instance is stopped first. On success the slot holds the new instance; on failure the slot is empty and the error is returned. The hook host changes only as the start's before-start stage makes it, and no file or executed script changes. |
| Supervisor.Service.StartInstance | src/service/service.rs:568-583 | On an empty slot: on success the slot holds exactly the instance `RestartSpec` starts; on failure the slot stays empty and the wrapped error is returned. The tag, version, wake-ups and hook host change as the start's stages make them once preparation succeeds, and not at all otherwise. |
| Supervisor.Service.Start | src/service/service.rs:517-528 | Without auto start nothing happens. With it, a restart is attempted, and a failure is logged but not returned. The hook host changes only through that restart, and no file or executed script changes. |
| Supervisor.Service.Close | src/service/service.rs:530-535 | Closing stops any instance and empties the slot. |
| Supervisor.Service.GetConfig | src/service/service.rs:586-592 | The running instance's configuration is returned, and none when nothing runs. |
| Supervisor.Service.LogQueueListener | src/service/service.rs:594-596 | The new listener starts at the end of the broadcast history: its receiver yields what is pushed from now on. |
| Strings.TrimStartMatches | src/manager/http.rs:285 | Rust's `trim_start_matches`: what is left is a suffix of the input that no longer starts with the pattern. |
| Strings.TrimStartStripsCopies | src/manager/http.rs:285 | Only whole copies are removed: the input is some number of copies of the pattern followed by the result, which does not start with another copy. |
| Strings.SplitOnce | src/manager/http.rs:307 | Rust's `split_once`: a split at the first occurrence of the separator, and none without one. |
| Strings.ReplaceChar | src/service/script.rs:66 | Rust's `replace` of one character: every occurrence is replaced, and nothing else changes. |
| Strings.RemoveChar | src/service/service.rs:223 | Removing dashes from the UUID: none are left, and no new characters appear. |
| Strings.RemoveCharCounts | src/service/service.rs:223 | Every other character is kept exactly as often as it occurs, and every dash is dropped. |
| Strings.RemoveCharAppend | src/service/service.rs:223 | Removal keeps the order: it distributes over concatenation, and one character is kept exactly when it is not the one removed. |
| Strings.ToAsciiLowercase | src/log/logger.rs:10 | Rust's `to_ascii_lowercase`: character by character, with the same length. |
| Strings.JoinSplit | src/service/service.rs:100 | Splitting the version output at newlines loses nothing. |

## Left out

- Concurrency and async. Tokio tasks, `Notify`, mutexes and atomics are not modelled. A wake-up is a counter, and the child task's status effects are applied when it is cancelled and awaited (`CancelAndWait`, `ApplyToStatus`). In the running system they are live, concurrent updates.
- Process control beyond its branch structure: spawning, pipes, signals, `kill_on_drop` and the windows console calls. What they answer is an input, such as a spawn result, an exit within the wait, or a SIGTERM delivery.
- `ServiceLaunch.LaunchEnv.listenParses`: `SocketAddr::from_str` is a yes/no input, not a parser of socket addresses.
- ServiceLaunch.Launch: does not model the `debug!`/`error!` log calls of `ServiceInner::new`, only its results.
- ServiceLaunch.Launch: the `set_mode` call at src/service/service.rs:88-91 has no effect, as in the source, and is left out.
- The clash API's socket I/O: frames are an input sequence. A cancellation during a callback (src/service/clash_api.rs:64-65) is modelled as the next frame being a cancellation.
- CoreVersion.ParseVersionOutput: it returns the tag lists of the lines after the version line, but their contents are not specified beyond `TrimEach`.
- The HTTP request handlers in src/api/, src/windows.rs, src/bin.rs, src/database/database.rs, src/log/output.rs and the web UI assets. They are outside this core.
- `list_script` and `list_config`, which are plain table scans. `KvStore.ListKv` shows the pattern.
- The core path is only read during preparation; running the core binary is not modelled.
- ManagerOptions.RawOptions: the listen address is kept as text, and the local listen port (a u16) is a nat.
- DbErrors.Error: database errors from sea-orm are abstracted to one text (`DBError`). Only a unique violation, `RecordNotUpdated`, and `RecordNotFound` (an update that sets no column, on an unknown id) are told apart.
- FsModel.IoError: the error texts are those Rust prints on Linux.
- LogQueue.LogQueue.Listen: a listener is a position in the broadcast history, and its receiver is an input that yields, up to its first error, values broadcast since then. `listen` is one step here, so entries pushed while it waits are not modelled; a receiver that lags behind ends the loop with the error it yields.
- HookScript.EarlyReturnLeaksFile: `run_script` returns early on a write or permission failure and leaves the temporary file behind; the model follows the code.
- ServiceLaunch.Launch: the start runs the before-start hook through `run_script` as written, so no hook script ever runs. `HookScript.Host.FixedRunHook` is the corrected runner, proved on its own and not used by the start.
- ScriptTable.AddScriptSpec: a duplicate id is reported as `ScriptDuplicateTag`, as the code does. ConfigTable.AddConfigSpec likewise reports `ConfigDuplicateTag`.
- Supervisor.RestartSpec: every failure, preparation failures included, is wrapped as `StartServiceFailed`, as `restart_service` does.

## Findings

| source | as written | input that shows it | evidently intended | confidence | as-written member | corrected member |
|---|---|---|---|---|---|---|
| src/service/script.rs:70-81 | The temporary file is opened with `create(true)` but without `write(true)`, which Rust's `OpenOptions` refuses with InvalidInput. | Any configured hook script on any platform | Open for writing, so the script is written and run | not executed | HookScript.AsWrittenHookNeverRuns | HookScript.FixedHookRunsAndCleansUp |
| src/service/script.rs:107-108 | `set_mode(0o755)` changes a copy of the permissions that is never written back with `set_permissions`. | Unix, any configured hook, once the open is fixed | Make the file executable before it is run | not executed | HookScript.ModeNotWrittenBackFailsSpawn | HookScript.FixedHookRunsAndCleansUp |
| src/manager/http.rs:285-325 | `trim_start_matches("Bearer ")` strips every leading "Bearer ", not one. | Secret "Bearer x" with header "Bearer Bearer x" (refused); secret "x" with header "Bearer Bearer x" (accepted) | Strip one "Bearer " prefix, as the comment at line 279 documents | not executed | HttpGate.BearerSecretLockedOut | HttpGate.FixedAcceptsEverySecret |
