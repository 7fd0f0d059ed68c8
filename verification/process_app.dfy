/**
 * `ProcessApp`: an isolated app whose instance runs in a worker process.
 *
 * Starting either adopts the process the instance lock names or spawns a new
 * worker, waits for the worker's first output line as a handshake, binds the
 * remote instance at an address derived from the app name and process id,
 * and, for a fresh worker, sets it up and starts it remotely before saving the
 * lock. The worker's exit cleans the lock and, when the app was `Running`,
 * counts as an unexpected shutdown that may start the app once more.
 *
 * Operating-system and remoting effects are not performed: what the outside
 * world answers is passed in as a `StartEnv`, and what the supervisor does to
 * it comes back as a sequence of `Effect`s, in order.
 */
module ProcessIsolation {
  import opened Wrappers
  import opened Text
  import opened ServerConfig
  import opened StatusInfo
  import I = Isolation

  // ----- constants (`ProcessAppConst`) -----

  const WorkerRemoteName := "ManagedAppWorker.rem"
  const DefaultStartTimeOut := 10
  const AutoStartOption := "autoStartAfterUnexpectedShutdown"
  const StartTimeOutOption := "startTimeOut"

  const TimeoutMessage := "The remote work item was timeout to setup!"
  const NotStartedMessage := "The worker process didn't start successfully!"
  const LookupMessage := "Failed to get server instance of a remote process!"
  const BootstrapMessage := "The bootstrap's remoting service has not been started."
  const SetupMessage := "The remote work item failed to setup!"
  const StartMessage := "The remote work item failed to start!"
  const NullConfigMessage := "Object reference not set to an instance of an object."

  /** `PortNameTemplate` filled in: the server tag of the worker with process id `pid`. */
  function PortName(name: string, pid: int): (r: string)
    ensures |r| == |name| + 15 + |ShowInt(pid)|
    ensures r[..|name|] == name
    ensures r[|name|..|name| + 14] == "[NRack.Worker:"
    ensures r[|r| - 1 - |ShowInt(pid)|..|r| - 1] == ShowInt(pid)
    ensures r[|r| - 1] == ']'
    ensures r[|name| + 13] == ':'
    ensures forall j :: |r| - 1 - |ShowInt(pid)| <= j < |r| - 1 ==> IsDigit(r[j]) || r[j] == '-'
  {
    name + "[NRack.Worker:" + ShowInt(pid) + "]"
  }

  /** `WorkerUri` filled in: the remoting address of the worker whose server tag is `portName`. */
  function WorkerUri(portName: string): (r: string)
    ensures |r| == |portName| + 27
    ensures r[..6] == "ipc://" && r[6..6 + |portName|] == portName
    ensures r[6 + |portName|..] == "/ManagedAppWorker.rem"
  {
    "ipc://" + portName + "/" + WorkerRemoteName
  }

  /** The callback address handed to the worker: the supervisor's own remoting port. */
  function BootstrapUri(port: string): string {
    "ipc://" + port + "/Bootstrap.rem"
  }

  // ----- configuration -----

  /** Whether the options turn auto-restart off: the value is "false" in any casing. */
  predicate DisablesAutoStart(config: Config) {
    var v := GetValue(config.options, AutoStartOption);
    v.Some? && EqualsIgnoreCase("false", v.value)
  }

  /**
   * The handshake timeout in seconds: `startTimeOut` (default "0") parsed as
   * a 32-bit integer, with 10 for anything unparseable or not positive.
   */
  function StartTimeOut(config: Config): (r: int)
    ensures 1 <= r <= Int32Max
    ensures var p := ParseInteger(Some(GetValueOr(config.options, StartTimeOutOption, "0")), Int32Min, Int32Max);
            r == if p.Some? && p.value > 0 then p.value else DefaultStartTimeOut
  {
    var parsed := ParseInteger(Some(GetValueOr(config.options, StartTimeOutOption, "0")), Int32Min, Int32Max);
    var seconds := parsed.GetOr(0);
    if seconds <= 0 then DefaultStartTimeOut else seconds
  }

  /** The handshake wait in milliseconds: a whole number of seconds, at least one. */
  function StartWaitMillis(config: Config): (r: int)
    ensures r >= 1000 && r % 1000 == 0
    ensures r / 1000 == StartTimeOut(config)
  {
    1000 * StartTimeOut(config)
  }

  /** Unchecked 32-bit two's-complement wrap-around. */
  function Wrap32(x: int): (r: int)
    ensures Int32Min <= r <= Int32Max
    ensures (r - x) % 0x1_0000_0000 == 0
    ensures Int32Min <= x <= Int32Max ==> r == x
  {
    (x - Int32Min) % 0x1_0000_0000 + Int32Min
  }

  /** `1000 * startTimeOut` as the source computes it, in unchecked 32-bit arithmetic. */
  function WaitMillisAsWritten(seconds: int): (r: int)
    ensures Int32Min <= r <= Int32Max
    ensures 0 <= seconds <= Int32Max / 1000 ==> r == 1000 * seconds
  {
    Wrap32(1000 * seconds)
  }

  /**
   * A `startTimeOut` of 4294968 seconds makes the as-written wait 704 ms
   * instead of about 50 days, and one of 2147484 makes it negative, which
   * `WaitOne` rejects; both are timeouts `StartTimeOut` accepts.
   */
  lemma WaitMillisWrapsAsWritten()
    ensures WaitMillisAsWritten(4294968) == 704
    ensures WaitMillisAsWritten(2147484) < -1
    ensures 4294968 <= Int32Max && 2147484 <= Int32Max
  {
  }

  /** A positive timeout written in decimal is the one used; anything not positive gives 10 seconds. */
  lemma StartTimeOutFromOption(config: Config, n: int)
    requires StartTimeOutOption in config.options && config.options[StartTimeOutOption] == ShowInt(n)
    requires Int32Min <= n <= Int32Max
    ensures n > 0 ==> StartTimeOut(config) == n && StartWaitMillis(config) == 1000 * n
    ensures n <= 0 ==> StartTimeOut(config) == DefaultStartTimeOut
  {
    ParseShowInt(n, Int32Min, Int32Max);
  }

  /** Without the option, or with a value that is not a number, the timeout is 10 seconds. */
  lemma StartTimeOutDefault(config: Config)
    requires StartTimeOutOption !in config.options
          || forall i :: 0 <= i < |config.options[StartTimeOutOption]| ==> !IsDigit(config.options[StartTimeOutOption][i])
    ensures StartTimeOut(config) == DefaultStartTimeOut
  {
    if StartTimeOutOption in config.options {
      ParseNeedsDigit(config.options[StartTimeOutOption], Int32Min, Int32Max);
    } else {
      assert ShowInt(0) == "0";
      ParseShowInt(0, Int32Min, Int32Max);
    }
  }

  // ----- the app record -----

  /** An operating-system process id: never 0, which `ProcessId` reserves for "no process". */
  type Pid = n: int | n > 0 witness 1

  /** The worker process the app holds; `exitWatched` once the exit handler is attached. */
  datatype WorkingProcess = WorkingProcess(pid: Pid, exitWatched: bool)

  /** What the supervisor does to the outside world, in the order it does it. */
  datatype Effect =
    | Spawned(pid: int)                       // a new worker process was started
    | Adopted(pid: int)                       // the locked process was taken over
    | AwaitedHandshake(millis: int)           // waited up to `millis` for the handshake line
    | Killed(pid: int)                        // the working process was killed
    | RemoteSetup(uri: string, appType: string, callback: string)  // the worker's remote `Setup`
    | RemoteStart(uri: string)
    | RemoteStop(uri: string)
    | LockSaved(pid: int)
    | LockCleaned

  datatype ProcessApp = ProcessApp(
    base: I.App,
    startupConfigFile: string,
    process: Option<WorkingProcess>,      // `m_WorkingProcess`
    serverTag: Option<string>,            // `m_ServerTag`
    hasPerformanceCounter: bool,          // `m_PerformanceCounter != null`
    autoStartAfterUnexpectedShutdown: bool,
    workStatus: string,                   // `m_ProcessWorkStatus`
    workSignalled: bool)                  // `m_ProcessWorkEvent` is set

  /** What the outside world answers during one `Start`. */
  datatype SpawnResult = SpawnedProcess(pid: Pid) | SpawnError(message: string)
  datatype RemoteReply = Replied(ok: bool) | RemoteError(message: string)
  datatype StartEnv = StartEnv(
    lockedPid: Option<Pid>,          // the live process the instance lock names, if any
    spawn: SpawnResult,              // `Process.Start` for a new worker
    output: seq<string>,             // stdout lines handled before the wait returns (null read as "")
    lookupError: Option<string>,     // `Activator.GetObject` failure, if any
    bootstrapIpcPort: Option<string>,
    setupReply: RemoteReply,
    startReply: RemoteReply)

  /** How a call ended: a normal return, or an exception escaping it. */
  datatype Outcome = Returned(ok: bool) | Escaped(fault: I.Fault)

  datatype Creation = Creation(app: ProcessApp, instance: Option<I.ManagedInstance>, effects: seq<Effect>, escaped: Option<I.Fault>)
  datatype StartResult = StartResult(app: ProcessApp, outcome: Outcome, effects: seq<Effect>)
  datatype ExitResult = ExitResult(app: ProcessApp, effects: seq<Effect>, unexpected: bool, restart: Option<Outcome>)

  /** The constructor: auto-restart on, no process, empty work status. */
  function New(metadata: I.Metadata, startupConfigFile: string, listening: bool): (r: ProcessApp)
    ensures r.base.state == I.NotInitialized
    ensures r.process.None? && r.serverTag.None? && !r.hasPerformanceCounter
    ensures r.autoStartAfterUnexpectedShutdown
    ensures r.workStatus == [] && !r.workSignalled
  {
    ProcessApp(I.New(metadata, listening), startupConfigFile, None, None, false, true, [], false)
  }

  /** `ProcessId`: 0 without a working process, its id otherwise; 0 means there is no worker. */
  function ProcessId(app: ProcessApp): (r: int)
    ensures r >= 0
    ensures r == 0 <==> app.process.None?
    ensures app.process.Some? ==> r == app.process.value.pid
  {
    if app.process.None? then 0 else app.process.value.pid
  }

  /** `Name` as `String.Format` renders it: null becomes the empty string. */
  function NameOf(app: ProcessApp): string {
    app.base.name.GetOr([])
  }

  /**
   * `Setup`: the base setup (which always succeeds), then auto-restart is
   * switched off if the option says "false". It is never switched back on.
   */
  function Setup(app: ProcessApp, config: Config): (r: (ProcessApp, bool))
    ensures r.1
    ensures r.0.base.state == I.NotStarted && r.0.base.config == Some(config)
    ensures r.0.autoStartAfterUnexpectedShutdown <==>
              app.autoStartAfterUnexpectedShutdown && !DisablesAutoStart(config)
    ensures r.0.process == app.process && r.0.workStatus == app.workStatus
  {
    var (b, ok) := I.Setup(app.base, config);
    if !ok then (app.(base := b), false)
    else
      var disabled := DisablesAutoStart(config);
      (app.(base := b, autoStartAfterUnexpectedShutdown := app.autoStartAfterUnexpectedShutdown && !disabled), true)
  }

  /** Delivers an error to the `ExceptionThrown` subscriber, if any. */
  function Raise(app: ProcessApp, fault: I.Fault): (r: ProcessApp)
    ensures r.base == I.OnExceptionThrown(app.base, fault)
    ensures r.(base := app.base) == app
  {
    app.(base := I.OnExceptionThrown(app.base, fault))
  }

  // ----- handshake capture -----

  /**
   * `WorkingProcess_OutputDataReceived`: an empty line is ignored; while no
   * status is recorded, a line is recorded trimmed and the event is set; once
   * a status is recorded, lines change nothing.
   */
  function OutputDataReceived(app: ProcessApp, data: string): (r: ProcessApp)
    ensures data == [] || app.workStatus != [] ==> r == app
    ensures data != [] && app.workStatus == [] ==> r.workStatus == Trim(data) && r.workSignalled
    ensures r.(workStatus := app.workStatus, workSignalled := app.workSignalled) == app
  {
    if data == [] then app
    else if app.workStatus == [] then app.(workStatus := Trim(data), workSignalled := true)
    else app
  }

  /** Handles each of `lines` in order. */
  function Feed(app: ProcessApp, lines: seq<string>): ProcessApp
    decreases |lines|
  {
    if |lines| == 0 then app else Feed(OutputDataReceived(app, lines[0]), lines[1..])
  }

  /** The reference reading of a handshake: the first line with non-blank content, trimmed. */
  function FirstContent(lines: seq<string>): (r: Option<string>)
    ensures r.Some? ==> r.value != [] && exists i :: 0 <= i < |lines| && IsFirstWith(lines, Trim, i, r.value)
    ensures r.None? ==> forall i :: 0 <= i < |lines| ==> Trim(lines[i]) == []
  {
    if |lines| == 0 then None
    else if Trim(lines[0]) != [] then
      assert IsFirstWith(lines, Trim, 0, Trim(lines[0]));
      Some(Trim(lines[0]))
    else
      var rest := FirstContent(lines[1..]);
      if rest.Some? then
        ShiftWitness(lines, Trim, rest.value);
        rest
      else
        ShiftAll(lines, Trim);
        rest
  }

  /** Line `i` of `xs` maps to `v` under `f`, and every earlier line maps to the empty string. */
  predicate IsFirstWith(xs: seq<string>, f: string -> string, i: int, v: string)
    requires 0 <= i < |xs|
  {
    f(xs[i]) == v && forall k :: 0 <= k < i ==> f(xs[k]) == []
  }

  /** The first line of the tail of `xs` mapping to `v`, behind a head mapping to the empty string, is the first such line of `xs`. */
  lemma ShiftWitness(xs: seq<string>, f: string -> string, v: string)
    requires |xs| > 0 && f(xs[0]) == []
    requires exists j :: 0 <= j < |xs[1..]| && IsFirstWith(xs[1..], f, j, v)
    ensures exists i :: 0 <= i < |xs| && IsFirstWith(xs, f, i, v)
  {
    var j :| 0 <= j < |xs[1..]| && IsFirstWith(xs[1..], f, j, v);
    assert xs[j + 1] == xs[1..][j];
    forall k | 0 <= k < j + 1 ensures f(xs[k]) == [] {
      if k > 0 {
        assert xs[k] == xs[1..][k - 1];
      }
    }
    assert IsFirstWith(xs, f, j + 1, v);
  }

  /** If the head and every line of the tail map to the empty string, every line does. */
  lemma ShiftAll(xs: seq<string>, f: string -> string)
    requires |xs| > 0 && f(xs[0]) == []
    requires forall j :: 0 <= j < |xs[1..]| ==> f(xs[1..][j]) == []
    ensures forall i :: 0 <= i < |xs| ==> f(xs[i]) == []
  {
    forall i | 0 < i < |xs| ensures f(xs[i]) == [] {
      assert xs[i] == xs[1..][i - 1];
    }
  }

  predicate SomeLineNonEmpty(lines: seq<string>) {
    exists i :: 0 <= i < |lines| && lines[i] != []
  }

  /** Once a status is recorded, no line changes anything. */
  lemma {:induction false} FeedKeepsRecordedStatus(app: ProcessApp, lines: seq<string>)
    requires app.workStatus != []
    ensures Feed(app, lines) == app
    decreases |lines|
  {
    if |lines| > 0 {
      FeedKeepsRecordedStatus(app, lines[1..]);
    }
  }

  /** Feeding lines touches nothing but the work status and its event. */
  lemma {:induction false} FeedFrame(app: ProcessApp, lines: seq<string>)
    ensures Feed(app, lines).(workStatus := app.workStatus, workSignalled := app.workSignalled) == app
    ensures app.workSignalled ==> Feed(app, lines).workSignalled
    decreases |lines|
  {
    if |lines| > 0 {
      FeedFrame(OutputDataReceived(app, lines[0]), lines[1..]);
    }
  }

  lemma SomeLineNonEmptyCons(lines: seq<string>)
    requires |lines| > 0
    ensures SomeLineNonEmpty(lines) <==> lines[0] != [] || SomeLineNonEmpty(lines[1..])
  {
    if SomeLineNonEmpty(lines) && lines[0] == [] {
      var i :| 0 <= i < |lines| && lines[i] != [];
      assert lines[1..][i - 1] != [];
    }
    if SomeLineNonEmpty(lines[1..]) {
      var i :| 0 <= i < |lines[1..]| && lines[1..][i] != [];
      assert lines[i + 1] != [];
    }
  }

  /**
   * Starting from no recorded status, feeding lines records the trimmed first
   * line with content, and sets the event iff it was set or some line was
   * non-empty.
   */
  lemma {:induction false} FeedCapturesFirstLine(app: ProcessApp, lines: seq<string>)
    requires app.workStatus == []
    ensures Feed(app, lines).workStatus == FirstContent(lines).GetOr([])
    ensures Feed(app, lines).workSignalled <==> app.workSignalled || SomeLineNonEmpty(lines)
    decreases |lines|
  {
    if |lines| > 0 {
      SomeLineNonEmptyCons(lines);
      var next := OutputDataReceived(app, lines[0]);
      if lines[0] == [] {
        assert Trim(lines[0]) == [];
        FeedCapturesFirstLine(next, lines[1..]);
      } else if Trim(lines[0]) == [] {
        FeedCapturesFirstLine(next, lines[1..]);
      } else {
        FeedKeepsRecordedStatus(next, lines[1..]);
      }
    }
  }

  /** What feeding lines does, whatever was recorded before. */
  lemma FeedOutcome(app: ProcessApp, lines: seq<string>)
    ensures Feed(app, lines).(workStatus := app.workStatus, workSignalled := app.workSignalled) == app
    ensures Feed(app, lines).workSignalled <==>
              app.workSignalled || (app.workStatus == [] && SomeLineNonEmpty(lines))
    ensures app.workStatus == [] ==> Feed(app, lines).workStatus == FirstContent(lines).GetOr([])
    ensures app.workStatus != [] ==> Feed(app, lines).workStatus == app.workStatus
  {
    FeedFrame(app, lines);
    if app.workStatus == [] {
      FeedCapturesFirstLine(app, lines);
    } else {
      FeedKeepsRecordedStatus(app, lines);
    }
  }

  /**
   * The blocking `WaitOne` on the handshake event, after `lines` were handled:
   * it succeeds iff the event is set, and a success resets the event.
   */
  function WaitForHandshake(app: ProcessApp, lines: seq<string>): (r: (ProcessApp, bool))
    ensures r.1 <==> app.workSignalled || (app.workStatus == [] && SomeLineNonEmpty(lines))
    ensures !r.0.workSignalled
    ensures app.workStatus == [] ==> r.0.workStatus == FirstContent(lines).GetOr([])
    ensures app.workStatus != [] ==> r.0.workStatus == app.workStatus
    ensures r.0.(workStatus := app.workStatus, workSignalled := app.workSignalled) == app
  {
    FeedOutcome(app, lines);
    var fed := Feed(app, lines);
    (fed.(workSignalled := false), fed.workSignalled)
  }

  /** `WorkingProcess_ErrorDataReceived`: every non-empty stderr line is raised as an error. */
  function ErrorDataReceived(app: ProcessApp, data: string): (r: ProcessApp)
    ensures data == [] ==> r == app
    ensures data != [] ==> r.base.raised == app.base.raised + (if app.base.listening then [I.Fault(data, None)] else [])
    ensures r.(base := app.base) == app
  {
    if data == [] then app else Raise(app, I.Fault(data, None))
  }

  // ----- launch or adopt (`CreateAndStartServerInstance`) -----

  /**
   * What every creation path guarantees: an instance comes back only bound to
   * the worker's address, with its exit watched and a performance counter
   * attached; the base record changes only by raised errors; the settings the
   * app was configured with are kept.
   */
  predicate Creates(app: ProcessApp, r: Creation) {
    && (r.escaped.Some? ==> r.instance.None?)
    && (r.instance.Some? ==>
          && r.app.process.Some? && r.app.process.value.exitWatched && r.app.hasPerformanceCounter
          && r.app.serverTag == Some(PortName(NameOf(app), r.app.process.value.pid))
          && r.instance.value.uri == WorkerUri(r.app.serverTag.value))
    && r.app.base.(raised := app.base.raised) == app.base
    && |app.base.raised| <= |r.app.base.raised| && r.app.base.raised[..|app.base.raised|] == app.base.raised
    && (app.process.Some? ==> r.app.process.Some?)
    && r.app.startupConfigFile == app.startupConfigFile
    && r.app.autoStartAfterUnexpectedShutdown == app.autoStartAfterUnexpectedShutdown
  }

  /** Takes `pid` as the working process and derives its server tag. */
  function Attach(app: ProcessApp, pid: Pid): (r: ProcessApp)
    ensures r.process == Some(WorkingProcess(pid, false))
    ensures r.serverTag == Some(PortName(NameOf(app), pid))
    ensures r.(process := app.process, serverTag := app.serverTag) == app
  {
    app.(process := Some(WorkingProcess(pid, false)), serverTag := Some(PortName(NameOf(app), pid)))
  }

  /** The final step of a successful start: attach the exit handler and the performance counter. */
  function Bind(app: ProcessApp): (r: ProcessApp)
    requires app.process.Some?
    ensures r.process == Some(app.process.value.(exitWatched := true)) && r.hasPerformanceCounter
    ensures r.(process := app.process, hasPerformanceCounter := app.hasPerformanceCounter) == app
  {
    app.(process := Some(app.process.value.(exitWatched := true)), hasPerformanceCounter := true)
  }

  /** A fatal launch step: kill `pid`, raise `fault`, produce no instance. */
  function Abort(app: ProcessApp, pid: int, fault: I.Fault, effects: seq<Effect>): (r: Creation)
    ensures r.instance.None? && r.escaped.None?
    ensures r.effects == effects + [Killed(pid)]
    ensures r.app == Raise(app, fault)
  {
    Creation(Raise(app, fault), None, effects + [Killed(pid)], None)
  }

  /** Takes over the process the lock names: no spawn, no handshake, no remote setup, no lock save. */
  function Adopt(app: ProcessApp, pid: Pid, lookupError: Option<string>): (r: Creation)
    ensures Creates(app, r)
    ensures r.escaped.None?
    ensures r.instance.Some? <==> lookupError.None?
    ensures r.effects == (if lookupError.None? then [Adopted(pid)] else [Adopted(pid), Killed(pid)])
  {
    var attached := Attach(app, pid);
    var uri := WorkerUri(PortName(NameOf(app), pid));
    match lookupError
    case Some(m) => Abort(attached, pid, I.Fault(LookupMessage, Some(m)), [Adopted(pid)])
    case None => Creation(Bind(attached), Some(I.ManagedInstance(uri)), [Adopted(pid)], None)
  }

  /** Remote `Setup` then remote `Start` on a fresh worker; the lock is saved only if both succeed. */
  function SetupAndStartRemotely(app: ProcessApp, pid: int, uri: string, callback: string, env: StartEnv, effects: seq<Effect>): (r: Creation)
    requires app.process.Some? && app.serverTag == Some(PortName(NameOf(app), app.process.value.pid))
    requires uri == WorkerUri(app.serverTag.value)
    ensures Creates(app, r)
    ensures r.escaped.None?
    ensures env.setupReply != Replied(true) ==>
              r.effects == effects + [RemoteSetup(uri, app.base.metadata.appType, callback), Killed(pid)] && r.instance.None?
    ensures env.setupReply == Replied(true) && env.startReply != Replied(true) ==>
              r.effects == effects + [RemoteSetup(uri, app.base.metadata.appType, callback), RemoteStart(uri), Killed(pid)] && r.instance.None?
    ensures env.setupReply == Replied(true) && env.startReply == Replied(true) ==>
              r.effects == effects + [RemoteSetup(uri, app.base.metadata.appType, callback), RemoteStart(uri), LockSaved(pid)] && r.instance.Some?
    ensures r.app.workStatus == app.workStatus && r.app.workSignalled == app.workSignalled
  {
    var afterSetup := effects + [RemoteSetup(uri, app.base.metadata.appType, callback)];
    match env.setupReply
    case RemoteError(m) => Abort(app, pid, I.Fault(SetupMessage, Some(m)), afterSetup)
    case Replied(false) => Abort(app, pid, I.Fault(SetupMessage, None), afterSetup)
    case Replied(true) =>
      var afterStart := afterSetup + [RemoteStart(uri)];
      match env.startReply
      case RemoteError(m) => Abort(app, pid, I.Fault(StartMessage, Some(m)), afterStart)
      case Replied(false) => Abort(app, pid, I.Fault(StartMessage, None), afterStart)
      case Replied(true) => Creation(Bind(app), Some(I.ManagedInstance(uri)), afterStart + [LockSaved(pid)], None)
  }

  /**
   * What follows the handshake wait on a fresh worker: a missing or non-"Ok"
   * handshake, a failed lookup or an unknown supervisor port ends the launch;
   * otherwise the worker is set up and started remotely.
   */
  function AfterHandshake(shaken: ProcessApp, signalled: bool, pid: int, env: StartEnv, waited: seq<Effect>): (r: Creation)
    requires shaken.process.Some? && shaken.serverTag == Some(PortName(NameOf(shaken), shaken.process.value.pid))
    requires pid == shaken.process.value.pid
    ensures Creates(shaken, r)
    ensures r.app.workStatus == shaken.workStatus && r.app.workSignalled == shaken.workSignalled
    ensures !signalled ==> r.effects == waited + [Killed(pid)] && r.instance.None? && r.escaped.None?
    ensures signalled && !EqualsIgnoreCase("Ok", shaken.workStatus) ==>
              r.effects == waited && r.instance.None? && r.escaped.None?
    ensures signalled && EqualsIgnoreCase("Ok", shaken.workStatus) && env.lookupError.Some? ==>
              r.effects == waited + [Killed(pid)] && r.instance.None? && r.escaped.None?
    ensures signalled && EqualsIgnoreCase("Ok", shaken.workStatus) && env.lookupError.None? &&
            (env.bootstrapIpcPort.None? || env.bootstrapIpcPort.value == []) ==>
              r.effects == waited && r.instance.None? && r.escaped.Some?
    ensures signalled && EqualsIgnoreCase("Ok", shaken.workStatus) && env.lookupError.None? &&
            env.bootstrapIpcPort.Some? && env.bootstrapIpcPort.value != [] ==>
              var uri := WorkerUri(PortName(NameOf(shaken), pid));
              var setup := RemoteSetup(uri, shaken.base.metadata.appType, BootstrapUri(env.bootstrapIpcPort.value));
              && r.escaped.None?
              && (env.setupReply != Replied(true) ==>
                    r.effects == waited + [setup, Killed(pid)] && r.instance.None?)
              && (env.setupReply == Replied(true) && env.startReply != Replied(true) ==>
                    r.effects == waited + [setup, RemoteStart(uri), Killed(pid)] && r.instance.None?)
              && (env.setupReply == Replied(true) && env.startReply == Replied(true) ==>
                    r.effects == waited + [setup, RemoteStart(uri), LockSaved(pid)] && r.instance.Some?)
  {
    var uri := WorkerUri(PortName(NameOf(shaken), pid));
    if !signalled then
      Abort(shaken, pid, I.Fault(TimeoutMessage, None), waited)
    else if !EqualsIgnoreCase("Ok", shaken.workStatus) then
      // the worker reported a failure: raised, but the process is left alive
      Creation(Raise(shaken, I.Fault(NotStartedMessage, None)), None, waited, None)
    else if env.lookupError.Some? then
      Abort(shaken, pid, I.Fault(LookupMessage, env.lookupError), waited)
    else if env.bootstrapIpcPort.None? || env.bootstrapIpcPort.value == [] then
      Creation(shaken, None, waited, Some(I.Fault(BootstrapMessage, None)))
    else
      SetupAndStartRemotely(shaken, pid, uri, BootstrapUri(env.bootstrapIpcPort.value), env, waited)
  }

  /** Drives a freshly spawned worker through the handshake, the remote lookup and the remote setup. */
  function Launch(app: ProcessApp, pid: Pid, env: StartEnv): (r: Creation)
    ensures Creates(app, r)
  {
    var attached := Attach(app, pid);
    if app.base.config.None? then
      // reading `Config.Options` throws once the worker is already running
      Creation(attached, None, [Spawned(pid)], Some(I.Fault(NullConfigMessage, None)))
    else
      var waited := [Spawned(pid), AwaitedHandshake(StartWaitMillis(app.base.config.value))];
      var (shaken, signalled) := WaitForHandshake(attached, env.output);
      AfterHandshake(shaken, signalled, pid, env, waited)
  }

  /**
   * `CreateAndStartServerInstance`: adopt the locked process or spawn a
   * worker. An instance comes back only bound to the worker's address, with
   * its exit watched and a performance counter attached; the base record
   * changes only by raised errors.
   */
  function CreateAndStartServerInstance(app: ProcessApp, env: StartEnv): (r: Creation)
    ensures Creates(app, r)
  {
    match env.lockedPid
    case Some(pid) => Adopt(app, pid, env.lookupError)
    case None =>
      match env.spawn
      case SpawnError(m) => Creation(Raise(app, I.Fault(m, None)), None, [], None)
      case SpawnedProcess(pid) => Launch(app, pid, env)
  }

  /**
   * `Start`: `Starting` while the instance is created, then `Running` with the
   * instance or `NotStarted` without one. An exception escaping the creation
   * leaves the app `Starting` with its previous instance.
   */
  function Start(app: ProcessApp, env: StartEnv): (r: StartResult)
    ensures r.outcome.Returned? ==> (r.outcome.ok <==> r.app.base.managed.Some?)
    ensures r.outcome == Returned(true) ==>
              && r.app.base.state == I.Running
              && r.app.process.Some? && r.app.process.value.exitWatched && r.app.hasPerformanceCounter
    ensures r.outcome == Returned(false) ==> r.app.base.state == I.NotStarted && r.app.base.managed.None?
    ensures r.outcome.Escaped? ==> r.app.base.state == I.Starting && r.app.base.managed == app.base.managed
    ensures r.app.base.stop == app.base.stop && r.app.base.config == app.base.config
    ensures r.app.autoStartAfterUnexpectedShutdown == app.autoStartAfterUnexpectedShutdown
  {
    var starting := app.(base := I.BeginStart(app.base));
    var c := CreateAndStartServerInstance(starting, env);
    if c.escaped.Some? then StartResult(c.app, Escaped(c.escaped.value), c.effects)
    else
      var (b, ok) := I.FinishStart(c.app.base, c.instance);
      StartResult(c.app.(base := b), Returned(ok), c.effects)
  }

  // ----- stop and exit -----

  /** Kills the working process, if there is one (`ShutdownProcess`). */
  function ShutdownProcess(app: ProcessApp): (r: seq<Effect>)
    ensures app.process.None? ==> r == []
    ensures app.process.Some? ==> r == [Killed(app.process.value.pid)]
  {
    if app.process.Some? then [Killed(app.process.value.pid)] else []
  }

  /**
   * The explicit stop, up to the blocking wait: without an instance nothing
   * happens; otherwise the app is `Stopping`, a stop is awaited, the instance
   * is told to stop and the process is killed. The wait ends with `ProcessExited`.
   */
  function Stop(app: ProcessApp): (r: (ProcessApp, seq<Effect>))
    ensures app.base.managed.None? ==> r.0 == app && r.1 == []
    ensures app.base.managed.Some? ==>
              && r.0.base.state == I.Stopping && r.0.base.stop == I.StopAwaited
              && r.1 == [RemoteStop(app.base.managed.value.uri)] + ShutdownProcess(app)
    ensures r.0.(base := app.base) == app
  {
    var (b, proceeds) := I.RequestStop(app.base);
    if !proceeds then (app, [])
    else (app.(base := b), [RemoteStop(app.base.managed.value.uri)] + ShutdownProcess(app))
  }

  /**
   * `OnStopped`: unexpected iff the app was `Running`; the base stop completes,
   * the process and the work status are dropped, and an unexpected stop with
   * auto-restart on starts the app once more.
   */
  function OnStopped(app: ProcessApp, env: StartEnv): (r: ExitResult)
    ensures r.unexpected <==> app.base.state == I.Running
    ensures r.restart.Some? <==> r.unexpected && app.autoStartAfterUnexpectedShutdown
    ensures r.restart.None? ==> r.effects == [] && r.app.base.state == I.NotStarted && r.app.process.None?
    ensures r.restart.None? ==> r.app.workStatus == []
    ensures r.app.base.stop != I.StopAwaited
  {
    var unexpected := app.base.state == I.Running;
    var stopped := app.(base := I.OnStopped(app.base), process := None, workStatus := []);
    if unexpected && app.autoStartAfterUnexpectedShutdown then
      var s := Start(stopped, env);
      ExitResult(s.app, s.effects, true, Some(s.outcome))
    else ExitResult(stopped, [], unexpected, None)
  }

  /**
   * The working process exits. Only a process whose exit handler is attached
   * reaches the supervisor: the lock is cleaned and the performance counter
   * dropped before `OnStopped` runs.
   */
  function ProcessExited(app: ProcessApp, env: StartEnv): (r: ExitResult)
    ensures app.process.None? || !app.process.value.exitWatched ==> r == ExitResult(app, [], false, None)
    ensures app.process.Some? && app.process.value.exitWatched ==>
              && |r.effects| >= 1 && r.effects[0] == LockCleaned
              && (r.restart.None? ==> !r.app.hasPerformanceCounter && r.effects == [LockCleaned])
  {
    if app.process.None? || !app.process.value.exitWatched then ExitResult(app, [], false, None)
    else
      var cleaned := app.(hasPerformanceCounter := false);
      var s := OnStopped(cleaned, env);
      ExitResult(s.app, [LockCleaned] + s.effects, s.unexpected, s.restart)
  }

  /**
   * `CollectStatus`: null without an instance; otherwise the instance's
   * status, with the performance sample written over it when a counter exists.
   */
  function CollectStatus(app: ProcessApp, remote: Status, sample: Status): (r: Option<Status>)
    ensures r.None? <==> app.base.managed.None?
    ensures r.Some? ==> remote.Keys <= r.value.Keys
    ensures r.Some? && !app.hasPerformanceCounter ==> r.value == remote
    ensures r.Some? && app.hasPerformanceCounter ==>
              r.value.Keys == remote.Keys + sample.Keys
              && (forall k :: k in sample ==> r.value[k] == sample[k])
              && (forall k :: k in remote && k !in sample ==> r.value[k] == remote[k])
  {
    if app.base.managed.None? then None
    else if app.hasPerformanceCounter then Some(remote + sample)
    else Some(remote)
  }
}
