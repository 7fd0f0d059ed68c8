/**
 * The lifecycle state machine shared by every isolated app (`IsolationApp`):
 * set up, start through a subclass-provided instance factory, stop with a
 * completion signal, and surface errors through the `ExceptionThrown` event.
 *
 * Each operation is a pure function from the old app record to the new one.
 * A step the subclass contributes (creating the instance, killing the process)
 * is split out so that `ProcessIsolation` can run it between the halves.
 */
module Isolation {
  import opened Wrappers
  import opened ServerConfig

  datatype ServerState = NotInitialized | Initializing | NotStarted | Starting | Running | Stopping

  /** The app's server metadata; only the app type, handed to the worker's remote `Setup`, is used here. */
  datatype Metadata = Metadata(appType: string)

  /** The started instance the subclass hands back, identified by its remote address. */
  datatype ManagedInstance = ManagedInstance(uri: string)

  /** An error raised through `ExceptionThrown`: its message and, if it wraps one, the cause's message. */
  datatype Fault = Fault(message: string, cause: Option<string>)

  /** The one-shot stop completion source: never created, created and awaited, or completed. */
  datatype StopSignal = NoStopSignal | StopAwaited | StopCompleted

  datatype App = App(
    state: ServerState,
    metadata: Metadata,
    name: Option<string>,
    config: Option<Config>,
    managed: Option<ManagedInstance>,
    stop: StopSignal,
    listening: bool,          // whether `ExceptionThrown` has a subscriber
    raised: seq<Fault>)       // the errors delivered to that subscriber, oldest first

  /** The constructor: nothing configured, nothing running. */
  function New(metadata: Metadata, listening: bool): (r: App)
    ensures r.state == NotInitialized
    ensures r.managed.None? && r.name.None? && r.config.None?
    ensures r.stop == NoStopSignal && r.raised == []
    ensures r.metadata == metadata && r.listening == listening
  {
    App(NotInitialized, metadata, None, None, None, NoStopSignal, listening, [])
  }

  /**
   * `Setup(config)`: passes through `Initializing` and always succeeds,
   * ending in `NotStarted` with the configuration and its name stored.
   */
  function Setup(app: App, config: Config): (r: (App, bool))
    ensures r.1
    ensures r.0.state == NotStarted
    ensures r.0.config == Some(config) && r.0.name == Some(config.name)
    ensures r.0.managed == app.managed && r.0.stop == app.stop
    ensures r.0.raised == app.raised && r.0.listening == app.listening
    ensures r.0.metadata == app.metadata
  {
    var initializing := app.(state := Initializing);
    (initializing.(config := Some(config), name := Some(config.name), state := NotStarted), true)
  }

  /** First half of `Start`: the state becomes `Starting` before the instance is created. */
  function BeginStart(app: App): (r: App)
    ensures r.state == Starting
    ensures r.(state := app.state) == app
  {
    app.(state := Starting)
  }

  /**
   * Second half of `Start`, given what `CreateAndStartServerInstance` returned:
   * success exactly when an instance came back.
   */
  function FinishStart(app: App, created: Option<ManagedInstance>): (r: (App, bool))
    ensures r.1 <==> created.Some?
    ensures r.0.managed == created
    ensures r.1 ==> r.0.state == Running
    ensures !r.1 ==> r.0.state == NotStarted && r.0.managed.None?
    ensures r.0.(state := app.state, managed := app.managed) == app
  {
    var withInstance := app.(managed := created);
    if created.Some? then (withInstance.(state := Running), true)
    else (withInstance.(state := NotStarted), false)
  }

  /**
   * The part of the explicit `Stop` that precedes the subclass's stop and the
   * blocking wait. Without an instance nothing happens; otherwise the state is
   * `Stopping` and a fresh completion signal is awaited. `r.1` says whether
   * the stop went ahead.
   */
  function RequestStop(app: App): (r: (App, bool))
    ensures r.1 <==> app.managed.Some?
    ensures !r.1 ==> r.0 == app
    ensures r.1 ==> r.0.state == Stopping && r.0.stop == StopAwaited
    ensures r.0.(state := app.state, stop := app.stop) == app
  {
    if app.managed.None? then (app, false)
    else (app.(state := Stopping, stop := StopAwaited), true)
  }

  /**
   * `OnStopped`, with the completion step made safe: the app is `NotStarted`
   * without an instance, and an awaited stop is completed. The source completes
   * the signal unconditionally; `OnStoppedAsWritten` shows what that does.
   */
  function OnStopped(app: App): (r: App)
    ensures r.state == NotStarted && r.managed.None?
    ensures r.stop != StopAwaited
    ensures app.stop == StopAwaited ==> r.stop == StopCompleted
    ensures app.stop != StopAwaited ==> r.stop == app.stop
    ensures r.(state := app.state, managed := app.managed, stop := app.stop) == app
  {
    var stopped := app.(state := NotStarted, managed := None);
    if app.stop == StopAwaited then stopped.(stop := StopCompleted) else stopped
  }

  /**
   * `OnStopped` as the source writes it: `SetResult` on the completion source
   * throws a null reference error when no stop ever created one and an
   * invalid-operation error when it is already completed. The state and the
   * instance are reset before the throw. `r.1` is the escaping exception.
   */
  function OnStoppedAsWritten(app: App): (r: (App, Option<string>))
    ensures r.1.None? <==> app.stop == StopAwaited
    ensures r.0.state == NotStarted && r.0.managed.None?
  {
    var stopped := app.(state := NotStarted, managed := None);
    match app.stop
    case StopAwaited => (stopped.(stop := StopCompleted), None)
    case NoStopSignal => (stopped, Some("NullReferenceException"))
    case StopCompleted => (stopped, Some("InvalidOperationException"))
  }

  /**
   * An app that exits on its own while `Running`, before any explicit stop,
   * makes the as-written `OnStopped` throw; so does every later unexpected exit.
   */
  lemma UnexpectedStopRaisesAsWritten(app: App)
    requires app.state == Running && app.stop != StopAwaited
    ensures OnStoppedAsWritten(app).1.Some?
    ensures OnStopped(app).stop == app.stop
  {
  }

  /** `OnExceptionThrown`: delivered to the subscriber if there is one, otherwise dropped. */
  function OnExceptionThrown(app: App, fault: Fault): (r: App)
    ensures !app.listening ==> r == app
    ensures app.listening ==> r.raised == app.raised + [fault]
    ensures r.(raised := app.raised) == app
  {
    if app.listening then app.(raised := app.raised + [fault]) else app
  }
}
