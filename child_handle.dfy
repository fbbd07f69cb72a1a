/**
 * `ServiceInner::child_handle` and `stop_process` (src/service/service.rs) as an event
 * machine. The `select!` loop is driven by one interleaving of its four sources (a line
 * read from stdout, one from stderr, the process exiting, the cancellation token) and
 * produces the effects the task has on the shared state, in order: the running flag,
 * status notifications, lines pushed into the log backlog, hook scripts run, the
 * "core started" wake-up and the process being stopped.
 */
module ChildHandle {
  import opened Wrappers
  import opened Strings
  import opened ScriptTable
  import opened FsModel
  import opened ServiceStatus

  datatype Stream = Stdout | Stderr

  /** What one `read_line` completed with: a line (empty at end of stream) or an error. */
  datatype ReadResult = Got(text: string) | ReadFailed

  /** The `select!` branch that fired, with the local time `chrono` would print for it. */
  datatype Event =
    | Read(stream: Stream, result: ReadResult, time: string)
    | Exited(error: Option<string>)
    | Cancelled(stop: StopOutcome)

  /** What `stop_process` finds: a pid or none, whether SIGTERM could be sent, whether the process exits within the 5 s wait. */
  datatype StopOutcome = StopOutcome(pid: Option<nat>, signalDelivered: bool, exitedInTime: bool)

  datatype StopSignal = SigTerm | CtrlC

  datatype Effect =
    | SetRunning(on: bool)              // `status.is_running.store`
    | NotifyStatus                      // `status.notify()`
    | Push(entry: Entry)                // `log_queue.push_data`
    | RunScript(hook: ScriptRunType)    // `script_handler.run_*_script()`
    | NotifyStarted                     // `started_notify.notify_waiters()`
    | LogError(note: ErrorNote)
    | Signal(signal: StopSignal)
    | Kill
    | CancelToken

  /** A line pushed into the backlog; `EntryText` gives its text. */
  datatype Entry = OutputLine(time: string, stream: Stream, text: string) | ServiceStarted(time: string) | ServiceClosed(time: string)

  /** An error logged by the task; `ErrorText` gives its text. */
  datatype ErrorNote = NoPid | ExitedWithError(error: string)

  const StartedMarker := "sing-box started"

  predicate IsTerminal(e: Event) { e.Exited? || e.Cancelled? }

  /** A line that makes the core count as started: non-empty and holding the marker. */
  predicate IsStartedLine(e: Event) {
    e.Read? && e.result.Got? && e.result.text != [] && Contains(e.result.text, StartedMarker)
  }

  function StreamName(s: Stream): string {
    match s
    case Stdout => "stdout"
    case Stderr => "stderr"
  }

  /** The backlog text: "[<time>] <stream>: <line without trailing whitespace>", or the start and close banners. */
  function EntryText(e: Entry): string {
    match e
    case OutputLine(time, s, text) => "[" + time + "] " + StreamName(s) + ": " + TrimEnd(text)
    case ServiceStarted(time) => "[" + time + "] service is started"
    case ServiceClosed(time) => "[" + time + "] service is closed"
  }

  function ErrorText(n: ErrorNote): string {
    match n
    case NoPid => "service: failed to get pid"
    case ExitedWithError(e) => "service: service exited with error: " + e
  }

  /** `read_line` keeps the line ending; the pushed line is the text without it. */
  lemma LineEndingDropped(time: string, s: Stream, line: string, ending: string)
    requires line == [] || !IsWhitespace(line[|line| - 1])
    requires ending == "\n" || ending == "\r\n"
    ensures EntryText(OutputLine(time, s, line + ending)) == "[" + time + "] " + StreamName(s) + ": " + line
  {
    var t := line + ending;
    if ending == "\r\n" {
      var u := line + "\r";
      assert t[..|t| - 1] == u && IsWhitespace(t[|t| - 1]);
      assert u[..|u| - 1] == line && IsWhitespace(u[|u| - 1]);
      assert TrimEnd(t) == TrimEnd(u) == TrimEnd(line) == line;
    } else {
      assert t[..|t| - 1] == line && IsWhitespace(t[|t| - 1]);
      assert TrimEnd(t) == TrimEnd(line) == line;
    }
  }

  /** One stdout or stderr branch: nothing for an error or end of stream, else the push and, on the marker, the after-start hook and the wake-up. */
  function ReadEffects(e: Event): (r: seq<Effect>)
    ensures !e.Read? || e.result.ReadFailed? || e.result.text == [] ==> r == []
    ensures RunScript(AfterStart) in r <==> IsStartedLine(e)
    ensures RunScript(BeforeClose) !in r && RunScript(AfterClose) !in r && RunScript(BeforeStart) !in r
  {
    if !e.Read? then [] else
    match e.result
    case ReadFailed => []
    case Got(text) =>
      if text == [] then []
      else
        var pushed := [Push(OutputLine(e.time, e.stream, text))];
        if Contains(text, StartedMarker) then pushed + [RunScript(AfterStart), NotifyStarted] else pushed
  }

  /** The effects of the loop for a run of non-terminal events. */
  function Body(events: seq<Event>): seq<Effect>
    decreases |events|
  {
    if events == [] then [] else Body(events[..|events| - 1]) + ReadEffects(events[|events| - 1])
  }

  /** The position of the first exit or cancellation, or |events| when the loop is still running. */
  function FirstTerminal(events: seq<Event>): (k: nat)
    ensures k <= |events|
    ensures k < |events| ==> IsTerminal(events[k])
    decreases |events|
  {
    if events == [] then 0
    else if IsTerminal(events[0]) then 0
    else 1 + FirstTerminal(events[1..])
  }

  /**
   * `stop_process` after a cancellation: unix sends SIGTERM and kills when that fails or
   * the process outlives the wait; windows sends a console Ctrl-C and kills the same way;
   * without a pid neither does anything but log; other systems just kill.
   */
  function StopProcess(platform: Platform, o: StopOutcome): (r: seq<Effect>)
    ensures platform != OtherOs && o.pid.None? ==> r == [LogError(NoPid)]
    ensures platform == Unix && o.pid.Some? ==> (Kill in r <==> !(o.signalDelivered && o.exitedInTime))
    ensures platform == Windows && o.pid.Some? ==> (Kill in r <==> !o.exitedInTime)
    ensures platform == OtherOs ==> r == [Kill]
  {
    match platform
    case Unix =>
      if o.pid.None? then [LogError(NoPid)]
      else if !o.signalDelivered then [Signal(SigTerm), Kill]
      else [Signal(SigTerm)] + (if o.exitedInTime then [] else [Kill])
    case Windows =>
      if o.pid.None? then [LogError(NoPid)]
      else [Signal(CtrlC)] + (if o.exitedInTime then [] else [Kill])
    case OtherOs => [Kill]
  }

  /** The branch that leaves the loop: an exit error is logged; a cancellation runs before-close and stops the process. */
  function TerminalEffects(platform: Platform, e: Event): seq<Effect>
    requires IsTerminal(e)
  {
    match e
    case Exited(err) => if err.Some? then [LogError(ExitedWithError(err.value))] else []
    case Cancelled(o) => [RunScript(BeforeClose)] + StopProcess(platform, o)
  }

  function Prologue(startTime: string): seq<Effect> {
    [SetRunning(true), NotifyStatus, Push(ServiceStarted(startTime))]
  }

  function Epilogue(closeTime: string): seq<Effect> {
    [RunScript(AfterClose), Push(ServiceClosed(closeTime)), CancelToken, SetRunning(false), NotifyStatus]
  }

  /** The whole task for one interleaving: the effects so far, and whether the task has ended. */
  function Trace(platform: Platform, events: seq<Event>, startTime: string, closeTime: string): (r: (seq<Effect>, bool))
    ensures r.1 <==> FirstTerminal(events) < |events|
  {
    var k := FirstTerminal(events);
    if k < |events| then
      (Prologue(startTime) + Body(events[..k]) + TerminalEffects(platform, events[k]) + Epilogue(closeTime), true)
    else (Prologue(startTime) + Body(events), false)
  }

  lemma TraceEnded(platform: Platform, events: seq<Event>, startTime: string, closeTime: string)
    requires FirstTerminal(events) < |events|
    ensures var k := FirstTerminal(events);
      Trace(platform, events, startTime, closeTime) ==
      (Prologue(startTime) + Body(events[..k]) + TerminalEffects(platform, events[k]) + Epilogue(closeTime), true)
  {
  }

  lemma TraceRunning(platform: Platform, events: seq<Event>, startTime: string, closeTime: string)
    requires FirstTerminal(events) == |events|
    ensures Trace(platform, events, startTime, closeTime) == (Prologue(startTime) + Body(events), false)
  {
  }

  /** How many started lines a run of events holds. */
  function StartedLines(events: seq<Event>): nat
    decreases |events|
  {
    if events == [] then 0
    else StartedLines(events[..|events| - 1]) + (if IsStartedLine(events[|events| - 1]) then 1 else 0)
  }

  lemma ReadEffectsCount(e: Event)
    ensures multiset(ReadEffects(e))[RunScript(AfterStart)] == if IsStartedLine(e) then 1 else 0
    ensures multiset(ReadEffects(e))[RunScript(BeforeClose)] == 0
  {
  }

  /** Every started line on either stream runs the after-start hook exactly once. */
  lemma {:induction false} AfterStartPerStartedLine(events: seq<Event>)
    ensures multiset(Body(events))[RunScript(AfterStart)] == StartedLines(events)
    ensures multiset(Body(events))[RunScript(BeforeClose)] == 0
    decreases |events|
  {
    if events != [] {
      var front := events[..|events| - 1];
      AfterStartPerStartedLine(front);
      ReadEffectsCount(events[|events| - 1]);
    }
  }

  /**
   * The task starts by raising the running flag, notifying and pushing "service is started";
   * once it ends, the after-close hook runs, then "service is closed" is pushed, the token
   * is cancelled, the flag drops and the watchers are notified, in that order and last.
   */
  lemma TraceFrame(platform: Platform, events: seq<Event>, startTime: string, closeTime: string)
    ensures var (t, done) := Trace(platform, events, startTime, closeTime);
      && t[..3] == [SetRunning(true), NotifyStatus, Push(ServiceStarted(startTime))]
      && (done ==> t[|t| - 5..] == Epilogue(closeTime))
  {
    var (t, done) := Trace(platform, events, startTime, closeTime);
    var k := FirstTerminal(events);
    if done {
      var mid := Body(events[..k]) + TerminalEffects(platform, events[k]);
      assert t == Prologue(startTime) + mid + Epilogue(closeTime);
      assert t[..3] == Prologue(startTime);
    } else {
      assert t[..3] == Prologue(startTime);
    }
  }

  /**
   * The after-start hook runs once per started line read before the loop ends, and the
   * before-close hook runs once if the loop ended by cancellation and never otherwise.
   */
  lemma HookCounts(platform: Platform, events: seq<Event>, startTime: string, closeTime: string)
    ensures var k := FirstTerminal(events);
      var t := Trace(platform, events, startTime, closeTime).0;
      && multiset(t)[RunScript(AfterStart)] == StartedLines(events[..k])
      && multiset(t)[RunScript(BeforeClose)] == (if k < |events| && events[k].Cancelled? then 1 else 0)
  {
    var k := FirstTerminal(events);
    if k < |events| {
      EndedHookCounts(platform, events, startTime, closeTime);
    } else {
      RunningHookCounts(platform, events, startTime, closeTime);
      assert events[..k] == events;
    }
  }

  lemma EndedHookCounts(platform: Platform, events: seq<Event>, startTime: string, closeTime: string)
    requires FirstTerminal(events) < |events|
    ensures var k := FirstTerminal(events);
      var t := Trace(platform, events, startTime, closeTime).0;
      && multiset(t)[RunScript(AfterStart)] == StartedLines(events[..k])
      && multiset(t)[RunScript(BeforeClose)] == (if events[k].Cancelled? then 1 else 0)
  {
    EndedAfterStartCount(platform, events, startTime, closeTime);
    EndedBeforeCloseCount(platform, events, startTime, closeTime);
  }

  lemma EndedAfterStartCount(platform: Platform, events: seq<Event>, startTime: string, closeTime: string)
    requires FirstTerminal(events) < |events|
    ensures var k := FirstTerminal(events);
      multiset(Trace(platform, events, startTime, closeTime).0)[RunScript(AfterStart)] == StartedLines(events[..k])
  {
    var k := FirstTerminal(events);
    var body := events[..k];
    AfterStartPerStartedLine(body);
    FrameCounts(startTime, closeTime);
    TerminalCounts(platform, events[k]);
    PartCounts(Prologue(startTime), Body(body), TerminalEffects(platform, events[k]), Epilogue(closeTime),
               RunScript(AfterStart), StartedLines(body));
  }

  lemma EndedBeforeCloseCount(platform: Platform, events: seq<Event>, startTime: string, closeTime: string)
    requires FirstTerminal(events) < |events|
    ensures var k := FirstTerminal(events);
      multiset(Trace(platform, events, startTime, closeTime).0)[RunScript(BeforeClose)]
      == (if events[k].Cancelled? then 1 else 0)
  {
    var k := FirstTerminal(events);
    var body := events[..k];
    AfterStartPerStartedLine(body);
    FrameCounts(startTime, closeTime);
    TerminalCounts(platform, events[k]);
    PartCounts(Prologue(startTime), Body(body), TerminalEffects(platform, events[k]), Epilogue(closeTime),
               RunScript(BeforeClose), 0);
  }

  lemma RunningHookCounts(platform: Platform, events: seq<Event>, startTime: string, closeTime: string)
    requires FirstTerminal(events) == |events|
    ensures var t := Trace(platform, events, startTime, closeTime).0;
      && multiset(t)[RunScript(AfterStart)] == StartedLines(events)
      && multiset(t)[RunScript(BeforeClose)] == 0
  {
    AfterStartPerStartedLine(events);
    FrameCounts(startTime, closeTime);
    TraceRunning(platform, events, startTime, closeTime);
  }

  lemma PartCounts(a: seq<Effect>, b: seq<Effect>, c: seq<Effect>, d: seq<Effect>, x: Effect, n: nat)
    requires multiset(a)[x] == 0 && multiset(b)[x] == n && multiset(d)[x] == 0
    ensures multiset(a + b + c + d)[x] == n + multiset(c)[x]
  {
    SplitCount(a, b, c, d, x);
  }

  lemma SplitCount(a: seq<Effect>, b: seq<Effect>, c: seq<Effect>, d: seq<Effect>, x: Effect)
    ensures multiset(a + b + c + d)[x] == multiset(a)[x] + multiset(b)[x] + multiset(c)[x] + multiset(d)[x]
  {
    assert multiset(a + b + c + d) == multiset(a) + multiset(b) + multiset(c) + multiset(d);
  }

  lemma FrameCounts(startTime: string, closeTime: string)
    ensures multiset(Prologue(startTime))[RunScript(AfterStart)] == 0
    ensures multiset(Prologue(startTime))[RunScript(BeforeClose)] == 0
    ensures multiset(Epilogue(closeTime))[RunScript(AfterStart)] == 0
    ensures multiset(Epilogue(closeTime))[RunScript(BeforeClose)] == 0
  {
    var p, e := Prologue(startTime), Epilogue(closeTime);
    assert RunScript(AfterStart) !in p && RunScript(BeforeClose) !in p;
    assert RunScript(AfterStart) !in e && RunScript(BeforeClose) !in e;
  }

  lemma TerminalCounts(platform: Platform, e: Event)
    requires IsTerminal(e)
    ensures multiset(TerminalEffects(platform, e))[RunScript(AfterStart)] == 0
    ensures multiset(TerminalEffects(platform, e))[RunScript(BeforeClose)] == if e.Cancelled? then 1 else 0
  {
    if e.Cancelled? {
      var stop := StopProcess(platform, e.stop);
      assert RunScript(AfterStart) !in stop && RunScript(BeforeClose) !in stop;
      assert TerminalEffects(platform, e) == [RunScript(BeforeClose)] + stop;
    }
  }

  /** On cancellation the before-close hook runs right before the process is stopped, and the epilogue follows. */
  lemma CancelStopsAfterHook(platform: Platform, events: seq<Event>, startTime: string, closeTime: string)
    requires FirstTerminal(events) < |events| && events[FirstTerminal(events)].Cancelled?
    ensures var k := FirstTerminal(events);
      var t := Trace(platform, events, startTime, closeTime).0;
      var at := 3 + |Body(events[..k])|;
      && t[at] == RunScript(BeforeClose)
      && t[at + 1..at + 1 + |StopProcess(platform, events[k].stop)|] == StopProcess(platform, events[k].stop)
  {
    var k := FirstTerminal(events);
    var head := Prologue(startTime) + Body(events[..k]);
    var stop := StopProcess(platform, events[k].stop);
    var t := Trace(platform, events, startTime, closeTime).0;
    assert t == head + [RunScript(BeforeClose)] + stop + Epilogue(closeTime);
  }

  /** Scanning from the front, the first terminal event is where the scan stops. */
  lemma {:induction false} FirstTerminalAt(events: seq<Event>, i: nat)
    requires i < |events| && i <= FirstTerminal(events)
    ensures IsTerminal(events[i]) <==> i == FirstTerminal(events)
    decreases i
  {
    if i > 0 {
      assert events[1..][i - 1] == events[i];
      FirstTerminalAt(events[1..], i - 1);
    }
  }

  lemma BodyStep(p: seq<Effect>, events: seq<Event>, i: nat)
    requires i < |events|
    ensures p + Body(events[..i + 1]) == p + Body(events[..i]) + ReadEffects(events[i])
  {
    assert events[..i + 1][..i] == events[..i];
  }

  /**
   * The `select!` loop: the prologue, then one branch per event until the process exits
   * or the token is cancelled, then the epilogue. `done` is false when the events run out
   * first, i.e. the task is still waiting.
   */
  method RunChildHandle(platform: Platform, events: seq<Event>, startTime: string, closeTime: string)
    returns (trace: seq<Effect>, done: bool)
    ensures (trace, done) == Trace(platform, events, startTime, closeTime)
  {
    trace := [SetRunning(true), NotifyStatus, Push(ServiceStarted(startTime))];
    done := false;
    var i := 0;
    while i < |events|
      invariant i <= FirstTerminal(events)
      invariant trace == Prologue(startTime) + Body(events[..i])
      invariant !done
    {
      var e := events[i];
      FirstTerminalAt(events, i);
      match e {
        case Read(stream, result, time) =>
          BodyStep(Prologue(startTime), events, i);
          ghost var before := trace;
          if result.Got? && result.text != [] {
            var text := result.text;
            trace := trace + [Push(OutputLine(time, stream, text))];
            if Contains(text, StartedMarker) {
              trace := trace + [RunScript(AfterStart), NotifyStarted];
            }
          }
          assert trace == before + ReadEffects(e);
          i := i + 1;
        case Exited(err) =>
          if err.Some? {
            trace := trace + [LogError(ExitedWithError(err.value))];
          }
          done := true;
          assert trace == Prologue(startTime) + Body(events[..i]) + TerminalEffects(platform, e);
          assert i == FirstTerminal(events);
          break;
        case Cancelled(o) =>
          trace := trace + [RunScript(BeforeClose)] + StopProcess(platform, o);
          done := true;
          assert trace == Prologue(startTime) + Body(events[..i]) + TerminalEffects(platform, e);
          assert i == FirstTerminal(events);
          break;
      }
    }
    if done {
      assert i == FirstTerminal(events) < |events|;
      assert trace == Prologue(startTime) + Body(events[..i]) + TerminalEffects(platform, events[i]);
      trace := trace + [RunScript(AfterClose), Push(ServiceClosed(closeTime)), CancelToken,
                        SetRunning(false), NotifyStatus];
      TraceEnded(platform, events, startTime, closeTime);
    } else {
      assert events[..i] == events;
      TraceRunning(platform, events, startTime, closeTime);
    }
  }

  /** The running flag after a trace: the last value it stored, or `before` when it stored none. */
  function RunningAfter(t: seq<Effect>, before: bool): bool
    decreases |t|
  {
    if t == [] then before
    else if t[|t| - 1].SetRunning? then t[|t| - 1].on
    else RunningAfter(t[..|t| - 1], before)
  }

  /** Once the task has ended, the running flag is down, whatever it was and whatever happened. */
  lemma EndedTaskNotRunning(platform: Platform, events: seq<Event>, startTime: string, closeTime: string, before: bool)
    requires Trace(platform, events, startTime, closeTime).1
    ensures !RunningAfter(Trace(platform, events, startTime, closeTime).0, before)
  {
    var t := Trace(platform, events, startTime, closeTime).0;
    TraceFrame(platform, events, startTime, closeTime);
    assert t[|t| - 1] == NotifyStatus && t[|t| - 2] == SetRunning(false);
    assert t[..|t| - 1][|t| - 2] == SetRunning(false);
  }

  /** While the task runs, the running flag is up. */
  lemma RunningTaskRuns(platform: Platform, events: seq<Event>, startTime: string, closeTime: string, before: bool)
    requires !Trace(platform, events, startTime, closeTime).1
    ensures RunningAfter(Trace(platform, events, startTime, closeTime).0, before)
  {
    var p := Prologue(startTime);
    assert Trace(platform, events, startTime, closeTime).0 == p + Body(events);
    BodyNoFlag(events);
    RunningAfterAppend(p, Body(events), before);
    var p2: seq<Effect> := [SetRunning(true), NotifyStatus];
    assert p[..2] == p2 && p2[..1] == [SetRunning(true)];
    assert RunningAfter(p2, before);
    assert RunningAfter(p, before) == RunningAfter(p2, before);
  }

  predicate NoFlag(t: seq<Effect>) {
    forall i :: 0 <= i < |t| ==> !t[i].SetRunning?
  }

  lemma {:induction false} BodyNoFlag(events: seq<Event>)
    ensures NoFlag(Body(events))
    decreases |events|
  {
    if events != [] {
      var front := events[..|events| - 1];
      BodyNoFlag(front);
      var a, r := Body(front), ReadEffects(events[|events| - 1]);
      assert forall i :: 0 <= i < |r| ==> r[i].Push? || r[i].RunScript? || r[i].NotifyStarted?;
      assert forall i :: 0 <= i < |a + r| ==> (a + r)[i] == if i < |a| then a[i] else r[i - |a|];
    }
  }

  lemma {:induction false} RunningAfterAppend(a: seq<Effect>, b: seq<Effect>, before: bool)
    requires NoFlag(b)
    ensures RunningAfter(a + b, before) == RunningAfter(a, before)
    decreases |b|
  {
    if b != [] {
      var c := a + b;
      var front := b[..|b| - 1];
      assert c[..|c| - 1] == a + front;
      assert c[|c| - 1] == b[|b| - 1] && !b[|b| - 1].SetRunning?;
      assert NoFlag(front) by {
        forall i | 0 <= i < |front| ensures !front[i].SetRunning? {
          assert front[i] == b[i];
        }
      }
      RunningAfterAppend(a, front, before);
    } else {
      assert a + b == a;
    }
  }

  /** The trace's effects on the shared status: the flag stores and the notifications. */
  method ApplyToStatus(status: Status, t: seq<Effect>)
    modifies status
    ensures status.isRunning == RunningAfter(t, old(status.isRunning))
    ensures status.notifications == old(status.notifications) + multiset(t)[NotifyStatus]
    ensures status.runningConfig == old(status.runningConfig) && status.coreVersion == old(status.coreVersion)
    ensures status.counters == old(status.counters)
  {
    var i := 0;
    while i < |t|
      invariant 0 <= i <= |t|
      invariant status.isRunning == RunningAfter(t[..i], old(status.isRunning))
      invariant status.notifications == old(status.notifications) + multiset(t[..i])[NotifyStatus]
      invariant status.runningConfig == old(status.runningConfig) && status.coreVersion == old(status.coreVersion)
      invariant status.counters == old(status.counters)
    {
      assert t[..i + 1] == t[..i] + [t[i]];
      assert t[..i + 1][..i] == t[..i];
      match t[i] {
        case SetRunning(on) => status.SetRunning(on);
        case NotifyStatus => status.Notify();
        case _ =>
      }
      i := i + 1;
    }
    assert t[..i] == t;
  }
}
