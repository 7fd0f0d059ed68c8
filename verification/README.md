# NRack process isolation, in Dafny

A model of the part of the NRack supervisor that runs each application in a
worker process of its own, and of the memory recycle trigger:

- `Isolation` (`isolation.dfy`): the `IsolationApp` lifecycle. It covers
  `Setup`, `Start` around the subclass's instance factory, the explicit
  `Stop` with its completion signal, `OnStopped`, and `OnExceptionThrown`.
- `ProcessIsolation` (`process_app.dfy`): `ProcessApp`. It covers the server
  tag and remoting address built from the app name and process id, and
  `Setup` reading `autoStartAfterUnexpectedShutdown`. `CreateAndStartServerInstance`
  either adopts the process the instance lock names or spawns a worker. A
  spawned worker goes through these steps:
  - the first-line handshake, waited for with `startTimeOut`;
  - the case-insensitive `"Ok"` check;
  - the remote lookup;
  - remote `Setup` then remote `Start`;
  - `SaveLock`.

  The module also covers the worker's exit (`WorkingProcess_Exited`),
  `OnStopped` with its single auto-restart, `Stop`, and `CollectStatus`.
- `ProcessAppProperties` (`process_app_properties.dfy`): properties that
  relate several calls. It covers injective addressing, adoption versus
  launch, when the lock is saved and which failures kill the worker, the
  stale handshake status, a lifecycle invariant every operation keeps, and
  the restart rules on exit.
- `MemoryRecycleTrigger` (`memory_trigger.dfy`): `Name`, `Initialize` and
  `NeedBeRecycled`.
- `Text`, `ServerConfig`, `StatusInfo` and `Wrappers` hold the .NET pieces
  the code leans on:
  - `String.Trim` and `Char.IsWhiteSpace`;
  - ordinal case-insensitive equality;
  - `Int32.TryParse`/`Int64.TryParse` with `NumberStyles.Integer`, and the
    decimal rendering of an integer;
  - `NameValueCollection.GetValue`;
  - the status map;
  - null as `Option`.

Every event is a pure function from the old app record to the new one. What
the outside world answers during a start is an input, a `StartEnv`:
- the locked process;
- the spawn result;
- the lines the worker writes before the wait returns;
- the remote lookup failure;
- the supervisor's own remoting port;
- the replies to remote `Setup` and `Start`.

What the supervisor does to the outside world comes back as an ordered list
of `Effect`s: spawn, adopt, handshake wait, kill, remote calls, lock save
and lock clean. An exception escaping `Start` is an `Outcome` value, not a
precondition.

Where the code does something other than its messages and option names suggest, the model follows the code. The two exceptions are the 32-bit wait and the stop signal, listed under Findings and "## Left out":
- A worker that answers the handshake with anything but "Ok" is **not**
  killed (`ProcessApp.cs:177-181`). Only the timeout kills (`:170-175`).
- A missing supervisor remoting port throws out of `Start` (`:188-191`). The
  app is left `Starting` and the worker running. Launch failures are not all
  turned into a false result.
- `IsolationApp.Setup` always returns true, whatever the configuration. This is the NDock `IsolationApp`; the NRack base class `ProcessApp` actually derives from is not part of this model (see "## Left out").
- `MemoryRecycleTrigger.Initialize` never returns true (see Findings).
- `Start` has no state guard, so it can be called in any state.
- `ProcessApp.Setup` only ever switches auto-restart off. A later `Setup`
  without the option does not switch it back on.
- The handshake records the first non-empty line, trimmed, and sets the
  event. A line of white space only therefore sets the event and records
  nothing. A later line can then still be recorded, but the wait already
  succeeded, so the check sees whatever status is recorded when it runs.
  `FirstContent` is the reference reading: the first line whose trimmed
  content is non-empty.
- A rejected handshake returns without clearing the recorded status. Only
  `OnStopped` clears it. Every later start of a fresh worker therefore
  times out (`RejectedHandshakeBlocksNextLaunch`).

## Model

| member | source | states |
|---|---|---|
| Isolation.New | src/NDock.Server/Isolation/IsolationApp.cs:20-24 | a new app is `NotInitialized`, with no instance, name, configuration or stop signal, and nothing raised |
| Isolation.Setup | src/NDock.Server/Isolation/IsolationApp.cs:28-35 | `Setup` always returns true. It ends `NotStarted`, stores the configuration and takes its name. Instance, stop signal and raised errors are untouched |
| Isolation.BeginStart | src/NDock.Server/Isolation/IsolationApp.cs:46-48 | the state becomes `Starting` before the instance is created, and nothing else changes |
| Isolation.FinishStart | src/NDock.Server/Isolation/IsolationApp.cs:50-61 | `Start` returns true iff an instance came back. With one it is `Running` and holds it; without one it is `NotStarted` with none. Only state and instance change |
| Isolation.RequestStop | src/NDock.Server/Isolation/IsolationApp.cs:64-80 | stopping without an instance changes nothing and does not go on. With one, the state is `Stopping` and a fresh completion signal is awaited before the subclass stops |
| Isolation.OnStopped | src/NDock.Server/Isolation/IsolationApp.cs:85-90 | after a stop the app is `NotStarted` without an instance, an awaited stop is completed, and no other field changes (the corrected form, see Findings) |
| Isolation.OnStoppedAsWritten | src/NDock.Server/Isolation/IsolationApp.cs:85-90 | completing the signal throws unless a stop is awaited, after state and instance were reset |
| Isolation.UnexpectedStopRaisesAsWritten | src/NDock.Server/Isolation/IsolationApp.cs:85-90 | a `Running` app whose worker exits with no stop awaited makes the source's `OnStopped` throw |
| Isolation.OnExceptionThrown | src/NDock.Server/Isolation/IsolationApp.cs:98-106 | without a subscriber nothing happens; with one, the error is appended to what it received, and nothing else changes |
| ProcessIsolation.PortName | src/NRack.Server/Isolation/ProcessIsolation/ProcessApp.cs:152-153 | the server tag is the name, `[NRack.Worker:`, the decimal process id and `]`, with each part at its offset |
| ProcessIsolation.WorkerUri | src/NRack.Server/Isolation/ProcessIsolation/ProcessApp.cs:155 | the remote address is `ipc://`, the tag and `/ManagedAppWorker.rem`, with each part at its offset |
| ProcessAppProperties.PortNameInjective | src/NRack.Server/Isolation/ProcessIsolation/ProcessApp.cs:152-153 | equal server tags come from the same app name and the same process id |
| ProcessAppProperties.WorkerUriInjective | src/NRack.Server/Isolation/ProcessIsolation/ProcessApp.cs:155 | equal remote addresses come from equal server tags |
| ProcessAppProperties.DistinctWorkersDistinctUris | src/NRack.Server/Isolation/ProcessIsolation/ProcessApp.cs:152-155 | two workers of one app with different process ids get different tags and different addresses |
| ProcessIsolation.New | src/NRack.Server/Isolation/ProcessIsolation/ProcessApp.cs:37-60 | a new process app has auto-restart on, no process, tag or performance counter, an empty work status and the event reset |
| ProcessIsolation.ProcessId | src/NRack.Server/Isolation/ProcessIsolation/ProcessApp.cs:62-77 | the id is never negative, is 0 exactly when there is no working process, and is otherwise the process's id |
| ProcessAppProperties.ZeroProcessIdMeansNotRunning | src/NRack.Server/Isolation/ProcessIsolation/ProcessApp.cs:62-77 | between operations, an id of 0 means the app is not `Running` and holds no instance, as the property's documentation promises |
| ProcessIsolation.Setup | src/NRack.Server/Isolation/ProcessIsolation/ProcessApp.cs:85-94 | `Setup` returns true (the base setup it builds on always succeeds) and ends `NotStarted`. Afterwards auto-restart is on iff it was on before and the option does not read "false" in any casing |
| ProcessAppProperties.AutoStartAfterFreshSetup | src/NRack.Server/Isolation/ProcessIsolation/ProcessApp.cs:90-91 | on a new app, auto-restart ends off iff the option is present and spells f-a-l-s-e in some mix of cases |
| ProcessAppProperties.AutoStartStaysOff | src/NRack.Server/Isolation/ProcessIsolation/ProcessApp.cs:90-91 | once auto-restart is off, no `Setup` turns it back on |
| Text.FalseSpellings | src/NRack.Server/Isolation/ProcessIsolation/ProcessApp.cs:90 | the ordinal case-insensitive comparison with "false" accepts exactly the 32 casings of the word |
| ProcessIsolation.StartTimeOut | src/NRack.Server/Isolation/ProcessIsolation/ProcessApp.cs:161-168 | the timeout is the option read as a 32-bit integer when that is positive, otherwise 10; it is always between 1 and `Int32.MaxValue` |
| ProcessIsolation.StartTimeOutFromOption | src/NRack.Server/Isolation/ProcessIsolation/ProcessApp.cs:161-170 | a positive decimal option is the timeout and the wait is 1000 times it; a non-positive one gives 10 |
| ProcessIsolation.StartTimeOutDefault | src/NRack.Server/Isolation/ProcessIsolation/ProcessApp.cs:161-168 | a missing option, or one with no digit, gives 10 seconds |
| ProcessIsolation.StartWaitMillis | src/NRack.Server/Isolation/ProcessIsolation/ProcessApp.cs:170 | the wait is a positive whole number of seconds in milliseconds, equal to the timeout (the intended arithmetic) |
| ProcessIsolation.WaitMillisAsWritten | src/NRack.Server/Isolation/ProcessIsolation/ProcessApp.cs:170 | `1000 * startTimeOut` in unchecked 32-bit arithmetic stays in 32-bit range and is exact for timeouts up to 2147483 |
| ProcessIsolation.WaitMillisWrapsAsWritten | src/NRack.Server/Isolation/ProcessIsolation/ProcessApp.cs:170 | accepted timeouts 4294968 and 2147484 wrap to 704 ms and to a negative wait |
| Text.ParseInteger | src/NRack.Server/Isolation/ProcessIsolation/ProcessApp.cs:163 | a parse succeeds only in range, and a null string never parses |
| Text.ParseShowInt | src/NRack.Server/Isolation/ProcessIsolation/ProcessApp.cs:163 | every in-range integer is read back from its own decimal rendering |
| Text.ParseNeedsDigit | src/NRack.Server/Isolation/ProcessIsolation/ProcessApp.cs:163 | a string without a digit never parses |
| Text.ShowIntInjective | src/NRack.Server/Isolation/ProcessIsolation/ProcessApp.cs:152 | different process ids render differently |
| ServerConfig.GetValue | src/NRack.Server/Isolation/ProcessIsolation/ProcessApp.cs:90 | an option reads as a value iff its key is present, and the value is the stored one |
| ServerConfig.GetValueOr | src/NRack.Server/Isolation/ProcessIsolation/ProcessApp.cs:163 | an option reads as the stored value, or as the default when absent |
| ProcessIsolation.OutputDataReceived | src/NRack.Server/Isolation/ProcessIsolation/ProcessApp.cs:261-272 | an empty line, or any line once a status is recorded, changes nothing. Otherwise the line is recorded trimmed and the event is set |
| Text.Trim | src/NRack.Server/Isolation/ProcessIsolation/ProcessApp.cs:268 | trimming cuts white space from both ends only: the result sits inside the input with only white space around it, and neither of its ends is white space |
| Text.TrimIdempotent | src/NRack.Server/Isolation/ProcessIsolation/ProcessApp.cs:268 | trimming a trimmed string changes nothing |
| ProcessIsolation.FirstContent | src/NRack.Server/Isolation/ProcessIsolation/ProcessApp.cs:261-272 | the reference reading of the handshake is the trimmed text of the first line that is not blank: every earlier line trims to nothing. There is none only when every line trims to nothing |
| ProcessIsolation.FeedCapturesFirstLine | src/NRack.Server/Isolation/ProcessIsolation/ProcessApp.cs:261-272 | from an empty status, handling the lines records the reference reading, and sets the event iff some line was non-empty |
| ProcessIsolation.FeedKeepsRecordedStatus | src/NRack.Server/Isolation/ProcessIsolation/ProcessApp.cs:266-271 | once a status is recorded, later lines change nothing |
| ProcessIsolation.FeedOutcome | src/NRack.Server/Isolation/ProcessIsolation/ProcessApp.cs:261-272 | handling lines touches only the status and the event, for either starting status |
| ProcessIsolation.WaitForHandshake | src/NRack.Server/Isolation/ProcessIsolation/ProcessApp.cs:170 | the wait succeeds iff the event was set by the lines or before, and always leaves it reset |
| Text.OkSpellings | src/NRack.Server/Isolation/ProcessIsolation/ProcessApp.cs:177 | the handshake check accepts exactly "Ok", "OK", "ok" and "oK" |
| ProcessIsolation.ErrorDataReceived | src/NRack.Server/Isolation/ProcessIsolation/ProcessApp.cs:274-280 | an empty error line is ignored; any other is raised with the line as message, and nothing else changes |
| ProcessIsolation.Adopt | src/NRack.Server/Isolation/ProcessIsolation/ProcessApp.cs:145-149 | adopting never escapes. The effects are the adoption, then a kill iff the lookup failed; an instance comes back iff the lookup worked, and only bound to the worker's address, with exit watched and a counter attached. The base record changes only by raised errors |
| ProcessIsolation.SetupAndStartRemotely | src/NRack.Server/Isolation/ProcessIsolation/ProcessApp.cs:193-230 | remote `Setup` is called first. A non-true reply kills the worker; otherwise remote `Start` follows, and a non-true reply to it kills the worker. Only after both does the lock save come, with an instance |
| ProcessIsolation.AfterHandshake | src/NRack.Server/Isolation/ProcessIsolation/ProcessApp.cs:170-230 | the effects and outcome of each branch after the wait: timeout, rejection, lookup failure, missing port, and the remote calls |
| ProcessIsolation.Launch | src/NRack.Server/Isolation/ProcessIsolation/ProcessApp.cs:159-231 | every launch keeps the creation guarantees of `Creates`: an instance only bound to the worker's address with exit watched and a counter, the base record changed only by raised errors |
| ProcessAppProperties.LaunchWithoutConfig | src/NRack.Server/Isolation/ProcessIsolation/ProcessApp.cs:129-163 | without a configuration, reading the start time-out throws after the spawn: the exception escapes, no instance comes back and the only effect is the spawn |
| ProcessIsolation.CreateAndStartServerInstance | src/NRack.Server/Isolation/ProcessIsolation/ProcessApp.cs:97-245 | any instance comes back bound to the address built from the name and process id, with exit watched and a counter. The base record only gains raised errors; settings are kept |
| ProcessIsolation.Start | src/NDock.Server/Isolation/IsolationApp.cs:46-62 | a normal return is true iff there is an instance. True means `Running` with a watched process and a counter; false means `NotStarted` without an instance. An escape leaves `Starting` with the old instance |
| ProcessAppProperties.AdoptionSkipsLaunch | src/NRack.Server/Isolation/ProcessIsolation/ProcessApp.cs:103-238 | adopting spawns nothing, waits for no handshake, makes no remote `Setup`/`Start` and saves no lock. It binds iff the lookup works and otherwise kills the process |
| ProcessAppProperties.SpawnErrorChangesNothing | src/NRack.Server/Isolation/ProcessIsolation/ProcessApp.cs:128-136 | a failed spawn raises the error, returns no instance and changes nothing else |
| ProcessAppProperties.LaunchReadsHandshake | src/NRack.Server/Isolation/ProcessIsolation/ProcessApp.cs:170-181 | after any launch the event is reset and the status is the one the wait read |
| ProcessAppProperties.LaunchTimesOut | src/NRack.Server/Isolation/ProcessIsolation/ProcessApp.cs:170-175 | with no handshake the effects are spawn, wait, kill; no instance, no lock |
| ProcessAppProperties.LaunchRejected | src/NRack.Server/Isolation/ProcessIsolation/ProcessApp.cs:177-181 | a handshake other than "Ok" fails the launch without a kill or a lock |
| ProcessAppProperties.LaunchLookupFails | src/NRack.Server/Isolation/ProcessIsolation/ProcessApp.cs:183-186 | a failed remote lookup after an accepted handshake kills the worker and fails |
| ProcessAppProperties.LaunchWithoutPort | src/NRack.Server/Isolation/ProcessIsolation/ProcessApp.cs:188-191 | an unknown supervisor port escapes with no kill and no lock |
| ProcessAppProperties.LaunchSetupFails | src/NRack.Server/Isolation/ProcessIsolation/ProcessApp.cs:193-211 | a remote `Setup` that is not true kills the worker right after it; no lock |
| ProcessAppProperties.LaunchStartFails | src/NRack.Server/Isolation/ProcessIsolation/ProcessApp.cs:213-228 | a remote `Start` that is not true kills the worker right after it; no lock |
| ProcessAppProperties.LaunchSucceeds | src/NRack.Server/Isolation/ProcessIsolation/ProcessApp.cs:193-244 | when both remote calls return true the effects are spawn, wait, setup, start and lock save, and an instance comes back |
| ProcessAppProperties.LaunchLocksOnlyAfterRemoteStart | src/NRack.Server/Isolation/ProcessIsolation/ProcessApp.cs:159-231 | on a fresh worker the lock is saved iff an instance comes back. That is iff the handshake reads "Ok", the lookup works, the port is known and both remote calls return true; the effects are then exactly spawn, wait, setup, start, lock save |
| ProcessAppProperties.FailedLaunchSavesNoLock | src/NRack.Server/Isolation/ProcessIsolation/ProcessApp.cs:170-228 | a launch that misses any success condition returns no instance and saves no lock |
| ProcessAppProperties.StoppedBeforeRemoteSavesNoLock | src/NRack.Server/Isolation/ProcessIsolation/ProcessApp.cs:170-191 | a launch that stops before the remote calls saves no lock |
| ProcessAppProperties.RemoteFailureSavesNoLock | src/NRack.Server/Isolation/ProcessIsolation/ProcessApp.cs:193-228 | a launch whose remote `Setup` or `Start` fails saves no lock |
| ProcessAppProperties.FailedLaunchKills | src/NRack.Server/Isolation/ProcessIsolation/ProcessApp.cs:170-230 | a launch that returns no instance and does not escape kills the worker iff the worker did not reject the handshake, and never saves the lock |
| ProcessAppProperties.KillsBeforeRemote | src/NRack.Server/Isolation/ProcessIsolation/ProcessApp.cs:170-191 | before the remote calls, only a rejected handshake leaves the worker alive |
| ProcessAppProperties.RejectedHandshakeBlocksNextLaunch | src/NRack.Server/Isolation/ProcessIsolation/ProcessApp.cs:170-181 | after a non-blank rejection the start fails without a kill. The next fresh worker then always times out, is killed, and no lock is saved |
| ProcessAppProperties.RejectedStartKeepsStatus | src/NRack.Server/Isolation/ProcessIsolation/ProcessApp.cs:177-181 | a rejected start keeps the recorded status and leaves the event reset |
| ProcessAppProperties.StaleStatusTimesOut | src/NRack.Server/Isolation/ProcessIsolation/ProcessApp.cs:170-175 | a start that finds a recorded status and a reset event times out and kills its worker |
| ProcessAppProperties.StartedProcessId | src/NRack.Server/Isolation/ProcessIsolation/ProcessApp.cs:68-77 | after a successful start `ProcessId` is the adopted or the spawned process's id |
| ProcessAppProperties.StartLaunchSucceeds | src/NRack.Server/Isolation/ProcessIsolation/ProcessApp.cs:159-244 | a `Start` that spawns a worker, reads an accepted handshake and gets true from both remote calls returns true, with exactly the spawn, the wait for the configured time, the setup, the start and the lock save |
| ProcessAppProperties.OkLineAccepted | src/NRack.Server/Isolation/ProcessIsolation/ProcessApp.cs:170-181 | with nothing captured yet, output whose first content is "ok" sets the event and passes the case-insensitive "Ok" test |
| ProcessAppProperties.WebWaitsTenSeconds | src/NRack.Server/Isolation/ProcessIsolation/ProcessApp.cs:161-170 | a configuration without options waits 10000 ms for the handshake |
| ProcessAppProperties.FirstStartScenario | src/NRack.Server/Isolation/ProcessIsolation/ProcessApp.cs:159-244 | a concrete first start: app "web" set up with no options, no lock, a worker whose first line is " ok ", both remote calls true. It returns true, ends `Running` on that worker, and its effects are spawn, a 10 s wait, setup, start and lock save |
| ProcessAppProperties.NewValid | src/NRack.Server/Isolation/ProcessIsolation/ProcessApp.cs:56-60 | a new app satisfies the invariant: an instance has a process; `Running` has instance, watched process and counter; `Stopping` awaits its signal |
| ProcessAppProperties.SetupKeepsValid | src/NRack.Server/Isolation/ProcessIsolation/ProcessApp.cs:85-94 | `Setup` keeps the invariant |
| ProcessAppProperties.StartKeepsValid | src/NRack.Server/Isolation/ProcessIsolation/ProcessApp.cs:97-245 | `Start` keeps the invariant on every outcome, including an escape |
| ProcessAppProperties.StopKeepsValid | src/NRack.Server/Isolation/ProcessIsolation/ProcessApp.cs:337-340 | the explicit stop keeps the invariant |
| ProcessAppProperties.ProcessExitedKeepsValid | src/NRack.Server/Isolation/ProcessIsolation/ProcessApp.cs:282-287 | a worker exit keeps the invariant, restart included |
| ProcessAppProperties.OutputKeepsValid | src/NRack.Server/Isolation/ProcessIsolation/ProcessApp.cs:261-280 | output and error lines keep the invariant |
| ProcessIsolation.ShutdownProcess | src/NRack.Server/Isolation/ProcessIsolation/ProcessApp.cs:289-302 | the shutdown kills the working process if there is one, and does nothing otherwise |
| ProcessIsolation.Stop | src/NDock.Server/Isolation/IsolationApp.cs:64-80 | without an instance nothing happens. Otherwise the app is `Stopping` with a stop awaited, the instance is told to stop and the process is killed |
| ProcessIsolation.OnStopped | src/NRack.Server/Isolation/ProcessIsolation/ProcessApp.cs:304-335 | a stop is unexpected iff the app was `Running`, and restarts iff unexpected with auto-restart on. Without a restart the app is `NotStarted` with no process and an empty status |
| ProcessIsolation.ProcessExited | src/NRack.Server/Isolation/ProcessIsolation/ProcessApp.cs:282-287 | an exit without the handler attached does nothing. Otherwise the lock is cleaned first and the counter dropped before `OnStopped` runs |
| ProcessAppProperties.UnexpectedExitRestartsOnce | src/NRack.Server/Isolation/ProcessIsolation/ProcessApp.cs:304-335 | a `Running` app whose worker dies is stopped unexpectedly, cleans the lock, and starts exactly once more iff auto-restart is on. Without a restart it is `NotStarted` with `ProcessId` 0 |
| ProcessAppProperties.ExplicitStopNeverRestarts | src/NRack.Server/Isolation/ProcessIsolation/ProcessApp.cs:304-335 | after an explicit stop, the worker's exit is expected and never restarts, whatever the setting. It completes the awaited stop and ends `NotStarted` with no process and an empty status |
| ProcessAppProperties.StopWithoutInstanceIsNoOp | src/NDock.Server/Isolation/IsolationApp.cs:66-69 | stopping an app without an instance changes nothing and has no effect |
| ProcessAppProperties.ExitClearsProcess | src/NRack.Server/Isolation/ProcessIsolation/ProcessApp.cs:304-312 | an exit that does not restart leaves no process, no instance and an empty status |
| ProcessIsolation.CollectStatus | src/NRack.Server/Isolation/ProcessIsolation/ProcessApp.cs:342-355 | no status without an instance. Otherwise the remote status, augmented by the performance sample (which wins on shared keys) only when a counter exists |
| ProcessAppProperties.RunningStatusCarriesSample | src/NRack.Server/Isolation/ProcessIsolation/ProcessApp.cs:342-355 | a running app always has a status; its keys are the worker's and the sample's, a sampled reading overrides the worker's, and the worker's other readings pass through |
| ProcessAppProperties.CollectStatusIdempotent | src/NRack.Server/Isolation/ProcessIsolation/ProcessApp.cs:351-352 | collecting the sample into an already collected status changes nothing |
| ProcessAppProperties.SampledMemoryDecidesRecycle | src/NRack.Server/Recycle/MemoryRecycleTrigger.cs:39-47 | the memory trigger, given a running app's collected status with a sampled memory reading, recycles iff that sampled reading reaches the threshold, whatever the worker reported |
| MemoryRecycleTrigger.New | src/NRack.Server/Recycle/MemoryRecycleTrigger.cs:19 | a new trigger's threshold is 0 |
| MemoryRecycleTrigger.Name | src/NRack.Server/Recycle/MemoryRecycleTrigger.cs:21-29 | the trigger's name is always "MemoryTrigger" |
| MemoryRecycleTrigger.ParsedThreshold | src/NRack.Server/Recycle/MemoryRecycleTrigger.cs:33 | a parsed threshold is a 64-bit value |
| MemoryRecycleTrigger.Initialize | src/NRack.Server/Recycle/MemoryRecycleTrigger.cs:31-37 | `Initialize` returns false for every input, and the threshold becomes the parsed value or 0 |
| MemoryRecycleTrigger.InitializeRejectsValidThreshold | src/NRack.Server/Recycle/MemoryRecycleTrigger.cs:33-34 | a decimal 64-bit threshold is stored and still rejected |
| MemoryRecycleTrigger.MissingThresholdRecyclesEverything | src/NRack.Server/Recycle/MemoryRecycleTrigger.cs:31-47 | with the option missing the threshold is 0, so any non-negative memory reading asks for a recycle |
| MemoryRecycleTrigger.InitializeIntended | src/NRack.Server/Recycle/MemoryRecycleTrigger.cs:31-37 | the corrected `Initialize` succeeds iff a positive threshold parses, and keeps that threshold |
| MemoryRecycleTrigger.InitializeIntendedRoundTrip | src/NRack.Server/Recycle/MemoryRecycleTrigger.cs:31-37 | the corrected `Initialize` reads back a positive decimal threshold and refuses a non-positive one |
| MemoryRecycleTrigger.NeedBeRecycled | src/NRack.Server/Recycle/MemoryRecycleTrigger.cs:39-47 | no memory reading means no recycle; otherwise recycle iff the reading is at least the threshold |
| MemoryRecycleTrigger.NeedBeRecycledMonotone | src/NRack.Server/Recycle/MemoryRecycleTrigger.cs:39-47 | a higher reading or a lower threshold never turns a recycle off, and the app passed in plays no part |
| MemoryRecycleTrigger.HundredMegabyteExample | src/NRack.Server/Recycle/MemoryRecycleTrigger.cs:41-46 | with a 100 MB threshold, 150000000 bytes recycles, 50000000 does not, and a snapshot without memory does not |

## Left out

- Operating-system process control is left out: `Process.Start` arguments, window and stream settings, `Kill` and the swallowed kill error. A spawn is an input and a kill is an `Effect`. The Mono command line (`ProcessApp.cs:111-118`) is not modelled.
- Threading is left out. The `AutoResetEvent` is a flag, and the lines handled before the wait returns are an input. A line that arrives after the wait is not separately modelled. The blocking `Wait` on the stop signal ends with the `ProcessExited` step.
- .NET remoting is left out. `Activator.GetObject`, the `BootstrapIpcPort` lookup and the remote `Setup`, `Start`, `Stop` and `CollectStatus` calls are inputs. An exception from the remote `Stop` is not modelled.
- The instance lock's file format, and `GetLockedProcess`/`SaveLock`/`CleanLock` internals, are left out. `ProcessLocker` is not part of this model; the lock is the input `lockedPid` plus save/clean effects.
- Performance counters and the status attribute metadata are left out. Readings are integers. The unboxing of a boxed double in `MemoryRecycleTrigger.cs:46` is not modelled.
- Logging is left out: the fatal, info and error lines around the restart. The restart outcome is returned instead.
- Exit handlers stay attached to process objects that were replaced or never bound. Only the current working process's exit is modelled.
- `Text.EqualsIgnoreCase`: does not model case folding outside ASCII letters, because the model's strings carry no culture data.
- `ServerConfig.GetValue`: does not model `NameValueCollection`'s case-insensitive keys or multiple values per key, because the options are a map from string to string.
- `Text.ParseInteger`: does not accept trailing NUL characters, which `TryParse` tolerates, because the model has no such input path.
- `ProcessIsolation.NameOf` renders a null name as the empty string, as `String.Format` does.
- `ProcessIsolation.Start`: the intermediate `Starting` state is not observable between the two halves, because the model has no concurrency.
- `Isolation.Setup`: the `Initializing` state is passed through and is not observable, for the same reason.
- `ProcessIsolation.Setup`: `ProcessApp` derives from NRack's own `IsolationApp` (it calls `base(metadata, startupConfigFile)` and `base.Setup(bootstrap, config)`), and that class is not part of this model. Its base is modelled on NDock's `IsolationApp`, whose `Setup` always succeeds, so the `return false` at `ProcessApp.cs:87-88` is written out but never taken, and `ensures r.1` rests on that stand-in.
- `ProcessIsolation.Launch`: waits `StartWaitMillis`, the intended `1000 * startTimeOut`, not the 32-bit product `ProcessApp.cs:170` computes. For `startTimeOut` of 2147484 or more the source waits a wrapped time or throws out of `Start` with the worker alive; the model instead waits the full time. `WaitMillisAsWritten` and `WaitMillisWrapsAsWritten` exhibit the source's behaviour on their own (see Findings).
- `ProcessIsolation.OnStopped`: builds on the corrected `Isolation.OnStopped`. As written (`IsolationApp.cs:85-90`, in the NDock base class standing in for NRack's), the first unexpected exit throws before the auto-restart; `Isolation.OnStoppedAsWritten` exhibits that on its own (see Findings).
- `ConfigurationExtension.cs`, `AppServerMetadata.cs` and `BootstrapBase.cs` hold reflection, XML and MEF setup; they are not part of this model.

## Findings

| source | as written | input that shows it | evidently intended | confidence | as-written member | corrected member |
|---|---|---|---|---|---|---|
| src/NRack.Server/Isolation/ProcessIsolation/ProcessApp.cs:170 | `1000 * startTimeOut` is unchecked 32-bit arithmetic | `startTimeOut` = 4294968 waits 704 ms; 2147484 gives a negative wait, which `WaitOne` rejects | wait `startTimeOut` seconds | high, not executed | ProcessIsolation.WaitMillisWrapsAsWritten | ProcessIsolation.StartWaitMillis |
| src/NRack.Server/Recycle/MemoryRecycleTrigger.cs:33-36 | returns false when the threshold parses, and when it does not (threshold 0) | `maxMemoryUsage` = "104857600" | true iff a positive threshold parses | high, not executed | MemoryRecycleTrigger.InitializeRejectsValidThreshold | MemoryRecycleTrigger.InitializeIntendedRoundTrip |
| src/NDock.Server/Isolation/IsolationApp.cs:85-90 | `m_StopTaskSrc.SetResult(true)` runs on every stop | a `Running` app whose worker exits on its own: the source is null (or already completed after an earlier stop) and the call throws before `ProcessApp.OnStopped` reaches the auto-restart | complete the signal only when a stop awaits it | medium, not executed; the text is NDock's base class, standing in for NRack's | Isolation.UnexpectedStopRaisesAsWritten | Isolation.OnStopped |
