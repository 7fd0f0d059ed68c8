/**
 * Properties of the process supervisor that relate several calls: distinct
 * worker addresses, adoption versus launch, the conditions for saving the
 * instance lock, the unexpected-shutdown restart, and an invariant every
 * operation keeps.
 */
module ProcessAppProperties {
  import opened Wrappers
  import opened Text
  import opened ServerConfig
  import I = Isolation
  import opened ProcessIsolation
  import opened StatusInfo
  import M = MemoryRecycleTrigger

  // ----- addressing -----

  /** Server tags identify the app name and the process id: different pairs give different tags. */
  lemma {:induction false} PortNameInjective(name1: string, pid1: int, name2: string, pid2: int)
    requires PortName(name1, pid1) == PortName(name2, pid2)
    ensures name1 == name2 && pid1 == pid2
  {
    var t := PortName(name1, pid1);
    var d1, d2 := ShowInt(pid1), ShowInt(pid2);
    if |d1| < |d2| {
      SeparatorMeetsDigits(name1, pid1, name2, pid2);
    } else if |d2| < |d1| {
      SeparatorMeetsDigits(name2, pid2, name1, pid1);
    }
    assert name1 == t[..|name1|] == name2;
    assert d1 == t[|t| - 1 - |d1|..|t| - 1] == d2;
    ShowIntInjective(pid1, pid2);
  }

  /**
   * The ':' ending the tag's separator sits where a longer process id would
   * have its characters, so equal tags have process ids of equal length.
   */
  lemma SeparatorMeetsDigits(name1: string, pid1: int, name2: string, pid2: int)
    requires PortName(name1, pid1) == PortName(name2, pid2)
    ensures |ShowInt(pid1)| >= |ShowInt(pid2)|
  {
    var t := PortName(name1, pid1);
    var d1, d2 := ShowInt(pid1), ShowInt(pid2);
    if |d1| < |d2| {
      assert false;
    }
  }

  /** Different server tags give different worker addresses. */
  lemma WorkerUriInjective(tag1: string, tag2: string)
    requires WorkerUri(tag1) == WorkerUri(tag2)
    ensures tag1 == tag2
  {
    var u := WorkerUri(tag1);
    assert |tag1| == |tag2|;
    assert tag1 == u[6..6 + |tag1|] == tag2;
  }

  /** Two workers of the same app with different process ids are reached at different addresses. */
  lemma DistinctWorkersDistinctUris(name: string, pid1: int, pid2: int)
    requires pid1 != pid2
    ensures PortName(name, pid1) != PortName(name, pid2)
    ensures WorkerUri(PortName(name, pid1)) != WorkerUri(PortName(name, pid2))
  {
    if WorkerUri(PortName(name, pid1)) == WorkerUri(PortName(name, pid2)) {
      WorkerUriInjective(PortName(name, pid1), PortName(name, pid2));
      PortNameInjective(name, pid1, name, pid2);
    }
    if PortName(name, pid1) == PortName(name, pid2) {
      PortNameInjective(name, pid1, name, pid2);
    }
  }

  // ----- configuration -----

  /**
   * On a freshly constructed app, `Setup` leaves auto-restart on unless the
   * option spells "false" in some casing.
   */
  lemma AutoStartAfterFreshSetup(metadata: I.Metadata, file: string, listening: bool, config: Config)
    ensures var r := Setup(New(metadata, file, listening), config).0;
            !r.autoStartAfterUnexpectedShutdown <==>
              && AutoStartOption in config.options
              && var v := config.options[AutoStartOption];
                 |v| == 5 && (v[0] == 'f' || v[0] == 'F') && (v[1] == 'a' || v[1] == 'A')
                 && (v[2] == 'l' || v[2] == 'L') && (v[3] == 's' || v[3] == 'S') && (v[4] == 'e' || v[4] == 'E')
  {
    if AutoStartOption in config.options {
      FalseSpellings(config.options[AutoStartOption]);
    }
  }

  /** Once an option has switched auto-restart off, no later `Setup` switches it back on. */
  lemma AutoStartStaysOff(app: ProcessApp, config: Config)
    requires !app.autoStartAfterUnexpectedShutdown
    ensures !Setup(app, config).0.autoStartAfterUnexpectedShutdown
  {
  }

  // ----- launch or adopt -----

  /** The handshake event is set once the lines handled before the wait are in. */
  predicate HandshakeArrives(app: ProcessApp, env: StartEnv) {
    app.workSignalled || (app.workStatus == [] && SomeLineNonEmpty(env.output))
  }

  /** The work status the wait then reads. */
  function HandshakeStatus(app: ProcessApp, env: StartEnv): string {
    if app.workStatus == [] then FirstContent(env.output).GetOr([]) else app.workStatus
  }

  predicate IsEffectOfLaunch(e: Effect) {
    e.Spawned? || e.AwaitedHandshake? || e.RemoteSetup? || e.RemoteStart? || e.LockSaved?
  }

  /**
   * Adopting the locked process spawns nothing, waits for no handshake, calls
   * neither remote `Setup` nor remote `Start` and saves no lock; it binds the
   * process iff the remote lookup works, and kills it otherwise.
   */
  lemma AdoptionSkipsLaunch(app: ProcessApp, env: StartEnv)
    requires env.lockedPid.Some?
    ensures var r := CreateAndStartServerInstance(app, env);
            var pid := env.lockedPid.value;
            && r.escaped.None?
            && (forall e :: e in r.effects ==> !IsEffectOfLaunch(e))
            && (r.instance.Some? <==> env.lookupError.None?)
            && r.effects == (if env.lookupError.None? then [Adopted(pid)] else [Adopted(pid), Killed(pid)])
            && r.app.process.Some? && r.app.process.value.pid == pid
            && r.app.workStatus == app.workStatus && r.app.workSignalled == app.workSignalled
  {
  }

  /** A spawn that fails leaves everything but the raised errors as it was. */
  lemma SpawnErrorChangesNothing(app: ProcessApp, env: StartEnv)
    requires env.lockedPid.None? && env.spawn.SpawnError?
    ensures var r := CreateAndStartServerInstance(app, env);
            && r.instance.None? && r.escaped.None? && r.effects == []
            && r.app == Raise(app, I.Fault(env.spawn.message, None))
  {
  }

  /** The effects every launch on a configured app starts with. */
  function Waited(app: ProcessApp, pid: int): seq<Effect>
    requires app.base.config.Some?
  {
    [Spawned(pid), AwaitedHandshake(StartWaitMillis(app.base.config.value))]
  }

  /** The handshake was set and read "Ok" in some casing. */
  predicate Accepted(app: ProcessApp, env: StartEnv) {
    HandshakeArrives(app, env) && EqualsIgnoreCase("Ok", HandshakeStatus(app, env))
  }

  /** The supervisor's own remoting port is known. */
  predicate PortKnown(env: StartEnv) {
    env.bootstrapIpcPort.Some? && env.bootstrapIpcPort.value != []
  }

  /** The effects of a launch that fails after the handshake save no lock. */
  lemma NoLockAfterWait(waited: seq<Effect>, rest: seq<Effect>)
    requires |waited| == 2 && waited[0].Spawned? && waited[1].AwaitedHandshake?
    requires forall i :: 0 <= i < |rest| ==> rest[i].RemoteSetup? || rest[i].RemoteStart? || rest[i].Killed?
    ensures forall p :: LockSaved(p) !in waited + rest
  {
  }

  /** The two effects every launch begins with kill nothing. */
  lemma NoKillAmong(effects: seq<Effect>, pid: int)
    requires |effects| == 2 && effects[0].Spawned? && effects[1].AwaitedHandshake?
    ensures Killed(pid) !in effects
  {
  }

  /**
   * Without a configuration the worker is already running when reading the
   * start time-out throws: the exception escapes, nothing else happens and
   * the worker is left alive.
   */
  lemma LaunchWithoutConfig(app: ProcessApp, pid: Pid, env: StartEnv)
    requires app.base.config.None?
    ensures var r := Launch(app, pid, env);
            && r.escaped == Some(I.Fault(NullConfigMessage, None)) && r.instance.None?
            && r.effects == [Spawned(pid)] && r.app == Attach(app, pid)
  {
  }

  /** Whatever branch a launch takes, the wait leaves the status it read and resets the event. */
  lemma LaunchReadsHandshake(app: ProcessApp, pid: Pid, env: StartEnv)
    requires app.base.config.Some?
    ensures var r := Launch(app, pid, env);
            r.app.workStatus == HandshakeStatus(app, env) && !r.app.workSignalled
  {
    FeedOutcome(Attach(app, pid), env.output);
  }

  /** No handshake in time: the worker is killed and the launch fails. */
  lemma LaunchTimesOut(app: ProcessApp, pid: Pid, env: StartEnv)
    requires app.base.config.Some? && !HandshakeArrives(app, env)
    ensures var r := Launch(app, pid, env);
            r.effects == Waited(app, pid) + [Killed(pid)] && r.instance.None? && r.escaped.None?
    ensures forall p :: LockSaved(p) !in Launch(app, pid, env).effects
    ensures Killed(pid) in Launch(app, pid, env).effects
  {
    FeedOutcome(Attach(app, pid), env.output);
    NoLockAfterWait(Waited(app, pid), [Killed(pid)]);
    assert Launch(app, pid, env).effects[|Launch(app, pid, env).effects| - 1] == Killed(pid);
  }

  /** A handshake other than "Ok": the launch fails and the worker is left running. */
  lemma LaunchRejected(app: ProcessApp, pid: Pid, env: StartEnv)
    requires app.base.config.Some? && HandshakeArrives(app, env) && !Accepted(app, env)
    ensures var r := Launch(app, pid, env);
            r.effects == Waited(app, pid) && r.instance.None? && r.escaped.None?
    ensures forall p :: LockSaved(p) !in Launch(app, pid, env).effects
    ensures Killed(pid) !in Launch(app, pid, env).effects
  {
    FeedOutcome(Attach(app, pid), env.output);
    NoLockAfterWait(Waited(app, pid), []);
    NoKillAmong(Launch(app, pid, env).effects, pid);
  }

  /** An accepted handshake but no remote object: the worker is killed and the launch fails. */
  lemma LaunchLookupFails(app: ProcessApp, pid: Pid, env: StartEnv)
    requires app.base.config.Some? && Accepted(app, env) && env.lookupError.Some?
    ensures var r := Launch(app, pid, env);
            r.effects == Waited(app, pid) + [Killed(pid)] && r.instance.None? && r.escaped.None?
    ensures forall p :: LockSaved(p) !in Launch(app, pid, env).effects
    ensures Killed(pid) in Launch(app, pid, env).effects
  {
    FeedOutcome(Attach(app, pid), env.output);
    NoLockAfterWait(Waited(app, pid), [Killed(pid)]);
    assert Launch(app, pid, env).effects[|Launch(app, pid, env).effects| - 1] == Killed(pid);
  }

  /** An unknown supervisor port: an exception escapes and the worker is left running. */
  lemma LaunchWithoutPort(app: ProcessApp, pid: Pid, env: StartEnv)
    requires app.base.config.Some? && Accepted(app, env) && env.lookupError.None? && !PortKnown(env)
    ensures var r := Launch(app, pid, env);
            r.effects == Waited(app, pid) && r.instance.None? && r.escaped.Some?
    ensures forall p :: LockSaved(p) !in Launch(app, pid, env).effects
  {
    FeedOutcome(Attach(app, pid), env.output);
    NoLockAfterWait(Waited(app, pid), []);
  }

  /** The remote address of the worker `pid` and the remote `Setup` call it receives. */
  function RemoteSetupOf(app: ProcessApp, pid: int, env: StartEnv): Effect
    requires PortKnown(env)
  {
    RemoteSetup(WorkerUri(PortName(NameOf(app), pid)), app.base.metadata.appType, BootstrapUri(env.bootstrapIpcPort.value))
  }

  /** Remote `Setup` failed or threw: the worker is killed and the launch fails. */
  lemma LaunchSetupFails(app: ProcessApp, pid: Pid, env: StartEnv)
    requires app.base.config.Some? && Accepted(app, env) && env.lookupError.None? && PortKnown(env)
    requires env.setupReply != Replied(true)
    ensures var r := Launch(app, pid, env);
            r.effects == Waited(app, pid) + [RemoteSetupOf(app, pid, env), Killed(pid)]
            && r.instance.None? && r.escaped.None?
    ensures forall p :: LockSaved(p) !in Launch(app, pid, env).effects
    ensures Killed(pid) in Launch(app, pid, env).effects
  {
    FeedOutcome(Attach(app, pid), env.output);
    NoLockAfterWait(Waited(app, pid), [RemoteSetupOf(app, pid, env), Killed(pid)]);
    assert Launch(app, pid, env).effects[|Launch(app, pid, env).effects| - 1] == Killed(pid);
  }

  /** Remote `Setup` succeeded but `Start` failed or threw: the worker is killed and the launch fails. */
  lemma LaunchStartFails(app: ProcessApp, pid: Pid, env: StartEnv)
    requires app.base.config.Some? && Accepted(app, env) && env.lookupError.None? && PortKnown(env)
    requires env.setupReply == Replied(true) && env.startReply != Replied(true)
    ensures var r := Launch(app, pid, env);
            r.effects == Waited(app, pid) + [RemoteSetupOf(app, pid, env), RemoteStart(WorkerUri(PortName(NameOf(app), pid))), Killed(pid)]
            && r.instance.None? && r.escaped.None?
    ensures forall p :: LockSaved(p) !in Launch(app, pid, env).effects
    ensures Killed(pid) in Launch(app, pid, env).effects
  {
    FeedOutcome(Attach(app, pid), env.output);
    NoLockAfterWait(Waited(app, pid), [RemoteSetupOf(app, pid, env), RemoteStart(WorkerUri(PortName(NameOf(app), pid))), Killed(pid)]);
    assert Launch(app, pid, env).effects[|Launch(app, pid, env).effects| - 1] == Killed(pid);
  }

  /** Both remote calls returned true: the lock is saved and an instance comes back. */
  lemma LaunchSucceeds(app: ProcessApp, pid: Pid, env: StartEnv)
    requires app.base.config.Some? && Accepted(app, env) && env.lookupError.None? && PortKnown(env)
    requires env.setupReply == Replied(true) && env.startReply == Replied(true)
    ensures var r := Launch(app, pid, env);
            r.effects == Waited(app, pid) + [RemoteSetupOf(app, pid, env), RemoteStart(WorkerUri(PortName(NameOf(app), pid))), LockSaved(pid)]
            && r.instance.Some? && r.escaped.None?
    ensures LockSaved(pid) in Launch(app, pid, env).effects
  {
    FeedOutcome(Attach(app, pid), env.output);
    assert Launch(app, pid, env).effects[4] == LockSaved(pid);
  }

  /**
   * On a freshly spawned worker the lock is saved iff an instance comes back,
   * and that happens iff the handshake arrives and reads "Ok" in any casing,
   * the remote lookup works, the supervisor's own port is known and remote
   * `Setup` and `Start` both return true. The effects are then exactly:
   * spawn, handshake wait, remote setup, remote start, lock save.
   */
  lemma LaunchLocksOnlyAfterRemoteStart(app: ProcessApp, env: StartEnv)
    requires env.lockedPid.None? && env.spawn.SpawnedProcess? && app.base.config.Some?
    ensures var r := CreateAndStartServerInstance(app, env);
            var pid := env.spawn.pid;
            var uri := WorkerUri(PortName(NameOf(app), pid));
            && (LockSaved(pid) in r.effects <==> r.instance.Some?)
            && (r.instance.Some? <==> LaunchSucceedsWhen(app, env))
            && (r.instance.Some? ==>
                  r.effects == Waited(app, pid) + [RemoteSetupOf(app, pid, env), RemoteStart(uri), LockSaved(pid)])
  {
    assert CreateAndStartServerInstance(app, env) == Launch(app, env.spawn.pid, env);
    LaunchLocksIff(app, env.spawn.pid, env);
  }

  /** Proof step of `LaunchLocksOnlyAfterRemoteStart`, taken on the launch step alone to keep each proof small. */
  lemma LaunchLocksIff(app: ProcessApp, pid: Pid, env: StartEnv)
    requires app.base.config.Some?
    ensures var r := Launch(app, pid, env);
            && (LockSaved(pid) in r.effects <==> r.instance.Some?)
            && (r.instance.Some? <==> LaunchSucceedsWhen(app, env))
            && (r.instance.Some? ==>
                  r.effects == Waited(app, pid) + [RemoteSetupOf(app, pid, env), RemoteStart(WorkerUri(PortName(NameOf(app), pid))), LockSaved(pid)])
  {
    if LaunchSucceedsWhen(app, env) {
      LaunchSucceeds(app, pid, env);
    } else {
      FailedLaunchSavesNoLock(app, pid, env);
    }
  }

  /** The conditions under which a launch on a fresh worker comes back with an instance. */
  predicate LaunchSucceedsWhen(app: ProcessApp, env: StartEnv) {
    && Accepted(app, env) && env.lookupError.None? && PortKnown(env)
    && env.setupReply == Replied(true) && env.startReply == Replied(true)
  }

  /** Any other launch returns no instance and saves no lock. */
  lemma FailedLaunchSavesNoLock(app: ProcessApp, pid: Pid, env: StartEnv)
    requires app.base.config.Some? && !LaunchSucceedsWhen(app, env)
    ensures var r := Launch(app, pid, env);
            r.instance.None? && forall p :: LockSaved(p) !in r.effects
  {
    if !Accepted(app, env) || env.lookupError.Some? || !PortKnown(env) {
      StoppedBeforeRemoteSavesNoLock(app, pid, env);
    } else {
      RemoteFailureSavesNoLock(app, pid, env);
    }
  }

  /** A launch that never reaches the remote calls saves no lock. */
  lemma StoppedBeforeRemoteSavesNoLock(app: ProcessApp, pid: Pid, env: StartEnv)
    requires app.base.config.Some? && (!Accepted(app, env) || env.lookupError.Some? || !PortKnown(env))
    ensures var r := Launch(app, pid, env);
            r.instance.None? && forall p :: LockSaved(p) !in r.effects
  {
    if !HandshakeArrives(app, env) {
      LaunchTimesOut(app, pid, env);
    } else if !Accepted(app, env) {
      LaunchRejected(app, pid, env);
    } else if env.lookupError.Some? {
      LaunchLookupFails(app, pid, env);
    } else {
      LaunchWithoutPort(app, pid, env);
    }
  }

  /** A launch whose remote `Setup` or `Start` fails saves no lock. */
  lemma RemoteFailureSavesNoLock(app: ProcessApp, pid: Pid, env: StartEnv)
    requires app.base.config.Some? && Accepted(app, env) && env.lookupError.None? && PortKnown(env)
    requires env.setupReply != Replied(true) || env.startReply != Replied(true)
    ensures var r := Launch(app, pid, env);
            r.instance.None? && forall p :: LockSaved(p) !in r.effects
  {
    if env.setupReply != Replied(true) {
      LaunchSetupFails(app, pid, env);
    } else {
      LaunchStartFails(app, pid, env);
    }
  }

  /**
   * A launch on a fresh worker that ends without an instance and without an
   * escaping exception kills the worker, except when the worker answered
   * the handshake with something other than "Ok": that worker is left running.
   */
  lemma FailedLaunchKills(app: ProcessApp, env: StartEnv)
    requires env.lockedPid.None? && env.spawn.SpawnedProcess? && app.base.config.Some?
    ensures var r := CreateAndStartServerInstance(app, env);
            var pid := env.spawn.pid;
            r.instance.None? && r.escaped.None? ==>
              && (Killed(pid) in r.effects <==> !(HandshakeArrives(app, env) && !Accepted(app, env)))
              && LockSaved(pid) !in r.effects
  {
    assert CreateAndStartServerInstance(app, env) == Launch(app, env.spawn.pid, env);
    LaunchKills(app, env.spawn.pid, env);
  }

  /** Proof step of `FailedLaunchKills`, taken on the launch step alone to keep each proof small. */
  lemma LaunchKills(app: ProcessApp, pid: Pid, env: StartEnv)
    requires app.base.config.Some?
    ensures var r := Launch(app, pid, env);
            r.instance.None? && r.escaped.None? ==>
              && (Killed(pid) in r.effects <==> !(HandshakeArrives(app, env) && !Accepted(app, env)))
              && LockSaved(pid) !in r.effects
  {
    if LaunchSucceedsWhen(app, env) {
      LaunchSucceeds(app, pid, env);
    } else if !Accepted(app, env) || env.lookupError.Some? || !PortKnown(env) {
      KillsBeforeRemote(app, pid, env);
    } else if env.setupReply != Replied(true) {
      LaunchSetupFails(app, pid, env);
    } else {
      LaunchStartFails(app, pid, env);
    }
  }

  /** Before the remote calls, only a rejected handshake leaves the worker alive. */
  lemma KillsBeforeRemote(app: ProcessApp, pid: Pid, env: StartEnv)
    requires app.base.config.Some? && (!Accepted(app, env) || env.lookupError.Some? || !PortKnown(env))
    ensures var r := Launch(app, pid, env);
            r.instance.None? && r.escaped.None? ==>
              && (Killed(pid) in r.effects <==> !(HandshakeArrives(app, env) && !Accepted(app, env)))
              && LockSaved(pid) !in r.effects
  {
    if !HandshakeArrives(app, env) {
      LaunchTimesOut(app, pid, env);
    } else if !Accepted(app, env) {
      LaunchRejected(app, pid, env);
    } else if env.lookupError.Some? {
      LaunchLookupFails(app, pid, env);
    } else {
      LaunchWithoutPort(app, pid, env);
    }
  }

  /**
   * After a worker rejects the handshake with a non-blank status, the status
   * is never cleared by the failed start, so the next freshly spawned worker
   * cannot hand anything over: that start times out, kills it and fails.
   */
  lemma RejectedHandshakeBlocksNextLaunch(app: ProcessApp, env1: StartEnv, env2: StartEnv)
    requires app.base.config.Some?
    requires env1.lockedPid.None? && env1.spawn.SpawnedProcess?
    requires HandshakeArrives(app, env1)
    requires HandshakeStatus(app, env1) != [] && !EqualsIgnoreCase("Ok", HandshakeStatus(app, env1))
    requires env2.lockedPid.None? && env2.spawn.SpawnedProcess?
    ensures var first := Start(app, env1);
            var second := Start(first.app, env2);
            && first.outcome == Returned(false)
            && Killed(env1.spawn.pid) !in first.effects
            && second.outcome == Returned(false)
            && Killed(env2.spawn.pid) in second.effects
            && LockSaved(env2.spawn.pid) !in second.effects
  {
    RejectedStartKeepsStatus(app, env1);
    StaleStatusTimesOut(Start(app, env1).app, env2);
  }

  /** A start whose worker rejects the handshake fails, leaves the worker alive and keeps the status. */
  lemma RejectedStartKeepsStatus(app: ProcessApp, env: StartEnv)
    requires app.base.config.Some? && env.lockedPid.None? && env.spawn.SpawnedProcess?
    requires HandshakeArrives(app, env) && !EqualsIgnoreCase("Ok", HandshakeStatus(app, env))
    ensures var r := Start(app, env);
            && r.outcome == Returned(false) && Killed(env.spawn.pid) !in r.effects
            && r.app.workStatus == HandshakeStatus(app, env) && !r.app.workSignalled
            && r.app.base.config == app.base.config
  {
    var pid := env.spawn.pid;
    var starting := app.(base := I.BeginStart(app.base));
    assert HandshakeArrives(starting, env) && !Accepted(starting, env);
    LaunchReadsHandshake(starting, pid, env);
    LaunchRejected(starting, pid, env);
    NoKillAmong(Launch(starting, pid, env).effects, pid);
  }

  /** A start that finds a status already recorded and the event reset times out and kills its worker. */
  lemma StaleStatusTimesOut(app: ProcessApp, env: StartEnv)
    requires app.base.config.Some? && env.lockedPid.None? && env.spawn.SpawnedProcess?
    requires app.workStatus != [] && !app.workSignalled
    ensures var r := Start(app, env);
            && r.outcome == Returned(false)
            && Killed(env.spawn.pid) in r.effects && LockSaved(env.spawn.pid) !in r.effects
  {
    var pid := env.spawn.pid;
    var starting := app.(base := I.BeginStart(app.base));
    assert !HandshakeArrives(starting, env);
    LaunchTimesOut(starting, pid, env);
  }

  /** After a successful start the process id is the adopted or spawned process's. */
  lemma StartedProcessId(app: ProcessApp, env: StartEnv)
    ensures var r := Start(app, env);
            r.outcome == Returned(true) ==>
              ProcessId(r.app) == (if env.lockedPid.Some? then env.lockedPid.value else env.spawn.pid)
              && ProcessId(r.app) == r.app.process.value.pid
  {
  }

  /**
   * `Start` with no lock, a spawned worker, an accepted handshake and both
   * remote calls true: the app runs, and the effects are exactly spawn, wait,
   * remote setup, remote start and the lock save.
   */
  lemma StartLaunchSucceeds(app: ProcessApp, env: StartEnv)
    requires env.lockedPid.None? && env.spawn.SpawnedProcess? && app.base.config.Some?
    requires Accepted(app, env) && env.lookupError.None? && PortKnown(env)
    requires env.setupReply == Replied(true) && env.startReply == Replied(true)
    ensures var r := Start(app, env);
            var pid := env.spawn.pid;
            && r.outcome == Returned(true)
            && r.effects == [Spawned(pid), AwaitedHandshake(StartWaitMillis(app.base.config.value)),
                             RemoteSetupOf(app, pid, env), RemoteStart(WorkerUri(PortName(NameOf(app), pid))), LockSaved(pid)]
  {
    var starting := app.(base := I.BeginStart(app.base));
    var pid := env.spawn.pid;
    assert Accepted(starting, env);
    LaunchSucceeds(starting, pid, env);
    assert NameOf(starting) == NameOf(app);
    assert Waited(starting, pid) == Waited(app, pid);
    var rest := [RemoteSetupOf(app, pid, env), RemoteStart(WorkerUri(PortName(NameOf(app), pid))), LockSaved(pid)];
    AppendToWaited(Waited(app, pid), rest);
  }

  /** Two effects followed by three, as one list of five. */
  lemma AppendToWaited(waited: seq<Effect>, rest: seq<Effect>)
    requires |waited| == 2 && |rest| == 3
    ensures waited + rest == [waited[0], waited[1], rest[0], rest[1], rest[2]]
  {
  }

  /** A first output line of " ok " is read as the status "ok". */
  lemma OkLineIsRead()
    ensures FirstContent([" ok "]) == Some("ok")
  {
    assert Trim(" ok ") == "ok" by {
      StripUnchanged("ok", IsWhiteSpace);
      assert " ok "[1..3] == "ok";
    }
    assert [" ok "][0] != [];
  }

  /** The start environment of the first-start scenario below. */
  function OkWorkerEnv(pid: Pid): StartEnv {
    StartEnv(None, SpawnedProcess(pid), [" ok "], None, Some("boot"), Replied(true), Replied(true))
  }

  /** A line with content is a non-empty line, so it also sets the event. */
  lemma ContentMeansSignal(lines: seq<string>)
    requires FirstContent(lines).Some?
    ensures SomeLineNonEmpty(lines)
  {
    var i :| 0 <= i < |lines| && Trim(lines[i]) == FirstContent(lines).value;
  }

  /** With nothing captured yet, a first content of "ok" is an accepted handshake. */
  lemma OkLineAccepted(app: ProcessApp, env: StartEnv)
    requires app.workStatus == [] && !app.workSignalled
    requires FirstContent(env.output) == Some("ok")
    ensures Accepted(app, env)
  {
    ContentMeansSignal(env.output);
    assert HandshakeArrives(app, env);
    assert HandshakeStatus(app, env) == "ok";
  }

  /** A configuration without a start time-out option waits the default 10 s. */
  lemma WebWaitsTenSeconds()
    ensures StartWaitMillis(Config("web", map[])) == 10000
  {
    StartTimeOutDefault(Config("web", map[]));
  }

  /**
   * A concrete first start: app "web" set up with no options, no lock, a
   * worker answering " ok " on its first line, both remote calls true. The
   * wait is 10 s and the app ends `Running` on that worker with the lock saved.
   */
  lemma FirstStartScenario(metadata: I.Metadata, file: string, pid: Pid)
    ensures var r := Start(Setup(New(metadata, file, true), Config("web", map[])).0, OkWorkerEnv(pid));
            && r.outcome == Returned(true)
            && r.app.base.state == I.Running
            && ProcessId(r.app) == pid
            && r.effects == [Spawned(pid), AwaitedHandshake(10000),
                             RemoteSetup(WorkerUri(PortName("web", pid)), metadata.appType, BootstrapUri("boot")),
                             RemoteStart(WorkerUri(PortName("web", pid))), LockSaved(pid)]
  {
    var app := Setup(New(metadata, file, true), Config("web", map[])).0;
    assert NameOf(app) == "web";
    WebWaitsTenSeconds();
    OkLineIsRead();
    OkLineAccepted(app, OkWorkerEnv(pid));
    StartLaunchSucceeds(app, OkWorkerEnv(pid));
    StartedProcessId(app, OkWorkerEnv(pid));
  }

  // ----- the lifecycle invariant -----

  /**
   * What holds between operations: an instance implies a working process, a
   * running app watches its process's exit and has a performance counter, and
   * a stopping app awaits its stop.
   */
  predicate Valid(app: ProcessApp) {
    && (app.base.managed.Some? ==> app.process.Some?)
    && (app.base.state == I.Running ==>
          && app.base.managed.Some? && app.process.Some?
          && app.process.value.exitWatched && app.hasPerformanceCounter)
    && (app.base.state == I.Stopping ==> app.base.stop == I.StopAwaited)
  }

  /**
   * The documented meaning of `ProcessId`: between operations, an app that is
   * running, or holds an instance, reports a non-zero process id; so a zero id
   * means the server instance is not running.
   */
  lemma ZeroProcessIdMeansNotRunning(app: ProcessApp)
    requires Valid(app)
    ensures ProcessId(app) == 0 ==> app.base.state != I.Running && app.base.managed.None?
  {
  }

  lemma NewValid(metadata: I.Metadata, file: string, listening: bool)
    ensures Valid(New(metadata, file, listening))
  {
  }

  lemma SetupKeepsValid(app: ProcessApp, config: Config)
    requires Valid(app)
    ensures Valid(Setup(app, config).0)
  {
  }

  lemma StartKeepsValid(app: ProcessApp, env: StartEnv)
    requires Valid(app)
    ensures Valid(Start(app, env).app)
  {
  }

  lemma StopKeepsValid(app: ProcessApp)
    requires Valid(app)
    ensures Valid(Stop(app).0)
  {
  }

  lemma ProcessExitedKeepsValid(app: ProcessApp, env: StartEnv)
    requires Valid(app)
    ensures Valid(ProcessExited(app, env).app)
  {
  }

  lemma OutputKeepsValid(app: ProcessApp, data: string)
    requires Valid(app)
    ensures Valid(OutputDataReceived(app, data)) && Valid(ErrorDataReceived(app, data))
  {
  }

  // ----- stopping and exits -----

  /**
   * A running app whose worker dies on its own: the lock is cleaned first, the
   * stop counts as unexpected, and the app is started exactly once more iff
   * auto-restart is on; without a restart it ends `NotStarted` with no process.
   */
  lemma UnexpectedExitRestartsOnce(app: ProcessApp, env: StartEnv)
    requires Valid(app) && app.base.state == I.Running
    ensures var r := ProcessExited(app, env);
            && r.unexpected
            && (r.restart.Some? <==> app.autoStartAfterUnexpectedShutdown)
            && r.effects[0] == LockCleaned
            && (r.restart.Some? ==>
                  var again := Start(app.(hasPerformanceCounter := false,
                                          base := I.OnStopped(app.base), process := None, workStatus := []), env);
                  r.restart == Some(again.outcome) && r.effects == [LockCleaned] + again.effects)
            && (r.restart.None? ==> r.app.base.state == I.NotStarted && ProcessId(r.app) == 0)
  {
  }

  /**
   * An explicit stop of a running app, followed by its worker's exit: the
   * instance is told to stop and the worker is killed, then the exit completes
   * the awaited stop, ends `NotStarted` and never restarts, whatever the
   * auto-restart setting.
   */
  lemma ExplicitStopNeverRestarts(app: ProcessApp, env: StartEnv)
    requires Valid(app) && app.base.state == I.Running
    ensures var (stopping, effects) := Stop(app);
            var r := ProcessExited(stopping, env);
            && effects == [RemoteStop(app.base.managed.value.uri), Killed(app.process.value.pid)]
            && !r.unexpected && r.restart.None?
            && r.effects == [LockCleaned]
            && r.app.base.state == I.NotStarted && r.app.base.stop == I.StopCompleted
            && r.app.base.managed.None? && ProcessId(r.app) == 0 && r.app.workStatus == []
  {
  }

  /** Stopping an app without an instance is a no-op. */
  lemma StopWithoutInstanceIsNoOp(app: ProcessApp)
    requires app.base.managed.None?
    ensures Stop(app) == (app, [])
  {
  }

  /** An exit that reaches the supervisor always leaves no working process behind unless a restart made one. */
  lemma ExitClearsProcess(app: ProcessApp, env: StartEnv)
    requires app.process.Some? && app.process.value.exitWatched
    ensures var r := ProcessExited(app, env);
            r.restart.None? ==> ProcessId(r.app) == 0 && r.app.workStatus == [] && r.app.base.managed.None?
  {
  }

  // ----- status -----

  /**
   * A running app, between operations, always has a status, and there every
   * reading its performance counter sampled overrides the worker's own while
   * the worker's other readings pass through.
   */
  lemma RunningStatusCarriesSample(app: ProcessApp, remote: Status, sample: Status)
    requires Valid(app) && app.base.state == I.Running
    ensures var r := CollectStatus(app, remote, sample);
            && r.Some? && r.value.Keys == remote.Keys + sample.Keys
            && (forall k :: k in sample ==> r.value[k] == sample[k])
            && (forall k :: k in remote && k !in sample ==> r.value[k] == remote[k])
  {
  }

  /** Overlaying the same sample a second time changes nothing. */
  lemma CollectStatusIdempotent(app: ProcessApp, remote: Status, sample: Status)
    requires app.base.managed.Some?
    ensures CollectStatus(app, CollectStatus(app, remote, sample).value, sample) == CollectStatus(app, remote, sample)
  {
    if app.hasPerformanceCounter {
      var once := remote + sample;
      assert (once + sample).Keys == once.Keys;
      assert forall k :: k in once ==> (once + sample)[k] == once[k];
      assert once + sample == once;
    }
  }

  /**
   * The memory trigger judges the collected status of a running app by the
   * memory reading the performance counter sampled, whatever the worker reported.
   */
  lemma SampledMemoryDecidesRecycle<A>(app: ProcessApp, remote: Status, sample: Status, t: M.Trigger, a: A)
    requires Valid(app) && app.base.state == I.Running && MemoryUsage in sample
    ensures var r := CollectStatus(app, remote, sample);
            r.Some? && (M.NeedBeRecycled(t, a, r.value) <==> sample[MemoryUsage] >= t.maxMemoryUsage)
  {
  }
}
