/** The tracking life cycle of `ToolManagerUsingIGSTK`
    (`source/service/tracking/cxToolManagerUsingIGSTK.cpp`): the state
    NONE < CONFIGURED < INITIALIZED < TRACKING, the tracker worker, and the
    one-shot continuations that run a missing lower step first.

    Every operation is a function on the control record `Ctl`. The worker
    thread is asynchronous: the manager only sends it requests, and the
    worker's answers (`configured(bool)`, `initialized(bool)`, `tracking(bool)`)
    are the event functions below. Signals the manager emits to itself are
    delivered synchronously, so a waiting continuation runs inside the
    emitting operation. */
module Tracking {

  /** `Tool::State`. */
  datatype TrackState = NoTracking | Configured | Initialized | Tracking

  function Rank(s: TrackState): nat
  {
    match s
    case NoTracking => 0
    case Configured => 1
    case Initialized => 2
    case Tracking => 3
  }

  /** `isConfigured`, `isInitialized`, `isTracking`. */
  predicate IsConfigured(s: TrackState) { Rank(s) >= 1 }
  predicate IsInitialized(s: TrackState) { Rank(s) >= 2 }
  predicate IsTracking(s: TrackState) { Rank(s) >= 3 }

  /** The continuation slots; each waits for one signal. */
  datatype Continuation =
    | InitializeAfterConfig            // on configured
    | StartTrackingAfterInit           // on initialized
    | UninitializeAfterTrackingStopped // on trackingStopped
    | DeconfigureAfterUninitialized    // on uninitialized
    | ConfigureAfterDeconfigure        // on deconfigured

  datatype Signal =
    | ConfiguredSignal | DeconfiguredSignal | InitializedSignal | UninitializedSignal
    | TrackingStartedSignal | TrackingStoppedSignal | StateChangedSignal

  /** Calls into the tracker worker thread. */
  datatype Request =
    | StartWorker(configPath: string, loggingFolder: string)
    | InitializeWorker(on: bool)
    | TrackWorker(on: bool)
    | StopWorker

  datatype Ctl = Ctl(
    state: TrackState,
    worker: bool,                // a tracker thread exists
    waiting: set<Continuation>,  // connected continuation slots
    configPath: string,
    loggingFolder: string,
    files: map<string, nat>,     // configuration files on disk: path to number of trackers
    requests: seq<Request>,
    signals: seq<Signal>,
    warnings: nat)               // warnings and errors the lifecycle steps report

  function Warn(c: Ctl): Ctl { c.(warnings := c.warnings + 1) }
  function Ask(c: Ctl, r: Request): Ctl { c.(requests := c.requests + [r]) }
  function Emit(c: Ctl, s: Signal): Ctl { c.(signals := c.signals + [s]) }
  function Wait(c: Ctl, k: Continuation): Ctl { c.(waiting := c.waiting + {k}) }
  function Fire(c: Ctl, k: Continuation): Ctl { c.(waiting := c.waiting - {k}) }

  /** The configuration file exists and names at least one tracker. */
  predicate ValidConfig(c: Ctl)
  {
    c.configPath != "" && c.configPath in c.files && c.files[c.configPath] > 0
  }

  // ---------------------------------------------------------------------------
  // Operations
  // ---------------------------------------------------------------------------

  /** `configure`: starts a worker for the current configuration file and
      logging folder, or warns and changes nothing else. */
  function Configure(c: Ctl): Ctl
  {
    if !ValidConfig(c) then Warn(c)
    else Ask(c.(worker := true), StartWorker(c.configPath, c.loggingFolder))
  }

  /** `initialize`. */
  function Initialize(c: Ctl): Ctl
  {
    if !IsConfigured(c.state) then Configure(Wait(c, InitializeAfterConfig))
    else if c.worker then Ask(c, InitializeWorker(true))
    else Warn(c)
  }

  /** `startTracking`. */
  function StartTracking(c: Ctl): Ctl
  {
    if !IsInitialized(c.state) then Initialize(Wait(c, StartTrackingAfterInit))
    else if c.worker then Ask(c, TrackWorker(true))
    else c
  }

  /** `stopTracking`. */
  function StopTracking(c: Ctl): Ctl
  {
    if !IsTracking(c.state) then c
    else if c.worker then Ask(c, TrackWorker(false))
    else c
  }

  /** `uninitialize`; also the slot for the worker's `error` signal. */
  function Uninitialize(c: Ctl): Ctl
  {
    if IsTracking(c.state) then StopTracking(Wait(c, UninitializeAfterTrackingStopped))
    else if !IsInitialized(c.state) then c
    else if c.worker then Ask(c, InitializeWorker(false))
    else c
  }

  /** Emitting `deconfigured` runs `configureAfterDeconfigureSlot` if connected. */
  function EmitDeconfigured(c: Ctl): Ctl
  {
    var e := Emit(c, DeconfiguredSignal);
    if ConfigureAfterDeconfigure in c.waiting then Configure(Fire(e, ConfigureAfterDeconfigure)) else e
  }

  /** `deconfigure`: below INITIALIZED it stops the worker and ends in NONE
      (the manual tool becomes dominant, see the tool manager); otherwise it
      uninitializes first. */
  function Deconfigure(c: Ctl): Ctl
  {
    if IsInitialized(c.state) then Uninitialize(Wait(c, DeconfigureAfterUninitialized))
    else
      var stopped := if c.worker then Ask(c, StopWorker).(worker := false) else c;
      Emit(EmitDeconfigured(stopped.(state := NoTracking)), StateChangedSignal)
  }

  function EmitConfigured(c: Ctl): Ctl
  {
    var e := Emit(c, ConfiguredSignal);
    if InitializeAfterConfig in c.waiting then Initialize(Fire(e, InitializeAfterConfig)) else e
  }

  function EmitInitialized(c: Ctl): Ctl
  {
    var e := Emit(c, InitializedSignal);
    if StartTrackingAfterInit in c.waiting then StartTracking(Fire(e, StartTrackingAfterInit)) else e
  }

  function EmitUninitialized(c: Ctl): Ctl
  {
    var e := Emit(c, UninitializedSignal);
    if DeconfigureAfterUninitialized in c.waiting then Deconfigure(Fire(e, DeconfigureAfterUninitialized)) else e
  }

  function EmitTrackingStopped(c: Ctl): Ctl
  {
    var e := Emit(c, TrackingStoppedSignal);
    if UninitializeAfterTrackingStopped in c.waiting then Uninitialize(Fire(e, UninitializeAfterTrackingStopped)) else e
  }

  /** `trackerConfiguredSlot`: the control part (the tool map is rebuilt by the
      tool manager before `configured` is emitted). */
  function ConfiguredEvent(c: Ctl, ok: bool): Ctl
  {
    if !ok then Deconfigure(c)
    else if !c.worker then c
    else Emit(EmitConfigured(c.(state := Configured)), StateChangedSignal)
  }

  /** `initializedSlot`. */
  function InitializedEvent(c: Ctl, ok: bool): Ctl
  {
    if ok then EmitInitialized(Emit(c.(state := Initialized), StateChangedSignal))
    else EmitUninitialized(Emit(c.(state := Configured), StateChangedSignal))
  }

  /** `trackerTrackingSlot`. */
  function TrackingEvent(c: Ctl, ok: bool): Ctl
  {
    if ok then Emit(Emit(c.(state := Tracking), StateChangedSignal), TrackingStartedSignal)
    else EmitTrackingStopped(Emit(c.(state := Initialized), StateChangedSignal))
  }

  /** `setState`: one step towards the target; the rest follows through the
      continuations when the worker answers. */
  function SetState(c: Ctl, target: TrackState): Ctl
  {
    if target == c.state then c
    else if Rank(target) > Rank(c.state) then
      match target
      case Tracking => StartTracking(c)
      case Initialized => Initialize(c)
      case Configured => Configure(c)
      case NoTracking => c
    else
      match target
      case Initialized => StopTracking(c)
      case Configured => Uninitialize(c)
      case NoTracking => Deconfigure(c)
      case Tracking => c
  }

  /** The control part of `setPlaybackMode` with a controller: an unconfigured
      manager first tries to configure; playback opens only when a worker exists
      and the manager is configured, and then emits `initialized`. */
  function OpenPlayback(c: Ctl): Ctl
  {
    var d := if IsConfigured(c.state) then c else Configure(c);
    if !d.worker then d
    else if !IsConfigured(d.state) then Warn(d)
    else Emit(EmitInitialized(d), StateChangedSignal)
  }

  /** Whether `setPlaybackMode` goes on to wrap the tools. */
  predicate PlaybackOpens(c: Ctl)
  {
    var d := if IsConfigured(c.state) then c else Configure(c);
    d.worker && IsConfigured(d.state)
  }

  /** The control part of `closePlayBackMode`. */
  function ClosePlayback(c: Ctl): Ctl
  {
    Emit(EmitInitialized(c), StateChangedSignal)
  }

  /** `setConfigurationFile`, with the path assigned before `deconfigure` so
      that the reconfiguration it triggers reads the new file. */
  function SetConfigurationFile(c: Ctl, path: string): Ctl
  {
    if path == c.configPath then c
    else if IsConfigured(c.state) then Deconfigure(Wait(c.(configPath := path), ConfigureAfterDeconfigure))
    else c.(configPath := path)
  }

  /** `setLoggingFolder`, likewise with the folder assigned first. */
  function SetLoggingFolder(c: Ctl, folder: string): Ctl
  {
    if folder == c.loggingFolder then c
    else if IsConfigured(c.state) then Deconfigure(Wait(c.(loggingFolder := folder), ConfigureAfterDeconfigure))
    else c.(loggingFolder := folder)
  }

  /** `setConfigurationFile` as the source orders it: `deconfigure` (which may
      emit `deconfigured` and reconfigure at once) runs before the new path is
      stored. */
  function SetConfigurationFileAsWritten(c: Ctl, path: string): Ctl
  {
    if path == c.configPath then c
    else
      var d := if IsConfigured(c.state) then Deconfigure(Wait(c, ConfigureAfterDeconfigure)) else c;
      d.(configPath := path)
  }

  function SetLoggingFolderAsWritten(c: Ctl, folder: string): Ctl
  {
    if folder == c.loggingFolder then c
    else
      var d := if IsConfigured(c.state) then Deconfigure(Wait(c, ConfigureAfterDeconfigure)) else c;
      d.(loggingFolder := folder)
  }

  // ---------------------------------------------------------------------------
  // Properties
  // ---------------------------------------------------------------------------

  /** The three tests nest. */
  lemma StateTestsNest(s: TrackState)
    ensures IsTracking(s) ==> IsInitialized(s)
    ensures IsInitialized(s) ==> IsConfigured(s)
    ensures IsConfigured(s) <==> s != NoTracking
    ensures IsTracking(s) <==> s == Tracking
  {
  }

  /** `configure` fails closed: with an empty, missing or tracker-less
      configuration it only warns; otherwise it starts exactly one worker. */
  lemma ConfigureSpec(c: Ctl)
    ensures !ValidConfig(c) ==> Configure(c) == c.(warnings := c.warnings + 1)
    ensures ValidConfig(c) ==>
              (Configure(c).worker && Configure(c).state == c.state
               && Configure(c).requests == c.requests + [StartWorker(c.configPath, c.loggingFolder)]
               && Configure(c).waiting == c.waiting && Configure(c).signals == c.signals)
  {
  }

  /** The worker answers asynchronously, so `setState` moves the state at once
      only when deconfiguring from CONFIGURED; `setState(current)` changes
      nothing. */
  lemma SetStateImmediate(c: Ctl, target: TrackState)
    ensures SetState(c, c.state) == c
    ensures SetState(c, target).state
      == (if target == NoTracking && c.state == Configured then NoTracking else c.state)
  {
  }

  /** A higher target only ever asks the worker to start, initialize or track. */
  lemma SetStateUpAsksOnlyForward(c: Ctl, target: TrackState)
    requires Rank(target) > Rank(c.state)
    ensures |SetState(c, target).requests| >= |c.requests|
    ensures SetState(c, target).requests[..|c.requests|] == c.requests
    ensures forall r :: r in SetState(c, target).requests[|c.requests|..] ==>
              r.StartWorker? || r == InitializeWorker(true) || r == TrackWorker(true)
    ensures SetState(c, target).waiting >= c.waiting
  {
    var r := SetState(c, target);
    assert r.requests == c.requests || r.requests == c.requests + [r.requests[|c.requests|]];
  }

  /** A lower target never starts the worker unless a reconfiguration was
      already waiting, and never asks it to initialize or track. */
  lemma SetStateDownAsksOnlyBackward(c: Ctl, target: TrackState)
    requires Rank(target) < Rank(c.state)
    ensures |SetState(c, target).requests| >= |c.requests|
    ensures SetState(c, target).requests[..|c.requests|] == c.requests
    ensures forall r :: r in SetState(c, target).requests[|c.requests|..] ==>
              r == InitializeWorker(false) || r == TrackWorker(false) || r == StopWorker
              || (r.StartWorker? && ConfigureAfterDeconfigure in c.waiting)
  {
    var r := SetState(c, target);
    assert |r.requests| <= |c.requests| + 2;
    assert r.requests[|c.requests|..] == [] || r.requests[|c.requests|..] == [r.requests[|c.requests|]]
      || r.requests[|c.requests|..] == [r.requests[|c.requests|], r.requests[|c.requests| + 1]];
  }

  /** Each completion event sets the state as the source promises, and the
      continuation waiting on the signal it emits is disconnected before it
      runs, so it runs at most once. */
  lemma ConfiguredEventSpec(c: Ctl)
    requires c.worker
    ensures ConfiguredEvent(c, true).state == Configured
    ensures ConfiguredEvent(c, true).waiting == c.waiting - {InitializeAfterConfig}
    ensures ConfiguredEvent(c, true).requests
      == c.requests + (if InitializeAfterConfig in c.waiting then [InitializeWorker(true)] else [])
    ensures ConfiguredEvent(c, false) == Deconfigure(c)
  {
  }

  lemma InitializedEventSpec(c: Ctl)
    ensures InitializedEvent(c, true).state == Initialized
    ensures InitializedEvent(c, true).waiting == c.waiting - {StartTrackingAfterInit}
    ensures InitializedEvent(c, false).state
      == (if DeconfigureAfterUninitialized in c.waiting then NoTracking else Configured)
    ensures DeconfigureAfterUninitialized !in InitializedEvent(c, false).waiting
    ensures ConfigureAfterDeconfigure in c.waiting && DeconfigureAfterUninitialized in c.waiting
      ==> ConfigureAfterDeconfigure !in InitializedEvent(c, false).waiting
  {
  }

  lemma TrackingEventSpec(c: Ctl)
    ensures TrackingEvent(c, true).state == Tracking
    ensures TrackingEvent(c, true).waiting == c.waiting
    ensures TrackingEvent(c, false).state == Initialized
    ensures TrackingEvent(c, false).waiting == c.waiting - {UninitializeAfterTrackingStopped}
  {
  }

  /** `deconfigure` below INITIALIZED ends in NONE without a worker; above it,
      it waits for `uninitialized` and uninitializes first. */
  lemma DeconfigureSpec(c: Ctl)
    ensures !IsInitialized(c.state) ==>
              (Deconfigure(c).state == NoTracking
               && (ConfigureAfterDeconfigure !in c.waiting ==> !Deconfigure(c).worker)
               && DeconfiguredSignal in Deconfigure(c).signals)
    ensures IsInitialized(c.state) ==>
              (Deconfigure(c).state == c.state && DeconfigureAfterUninitialized in Deconfigure(c).waiting)
    ensures c.state == Tracking ==> UninitializeAfterTrackingStopped in Deconfigure(c).waiting
  {
    if !IsInitialized(c.state) {
      var stopped := if c.worker then Ask(c, StopWorker).(worker := false) else c;
      var e := EmitDeconfigured(stopped.(state := NoTracking));
      assert e.signals[|stopped.signals|] == DeconfiguredSignal;
      assert Deconfigure(c).signals[|stopped.signals|] == DeconfiguredSignal;
    }
  }

  /** A freshly started manager reaches TRACKING through the continuations:
      `startTracking` from NONE, then the worker's three answers. */
  lemma StartTrackingReachesTracking(c: Ctl)
    requires c.state == NoTracking && c.waiting == {} && ValidConfig(c)
    ensures var r := TrackingEvent(InitializedEvent(ConfiguredEvent(StartTracking(c), true), true), true);
      r.state == Tracking && r.waiting == {} && r.worker
      && r.requests == c.requests + [StartWorker(c.configPath, c.loggingFolder), InitializeWorker(true), TrackWorker(true)]
  {
    var a := StartTracking(c);
    assert a.waiting == {StartTrackingAfterInit, InitializeAfterConfig};
    var b := ConfiguredEvent(a, true);
    assert b.waiting == {StartTrackingAfterInit};
    var d := InitializedEvent(b, true);
    assert d.waiting == {};
  }

  /** Deconfiguring while tracking ends in NONE with nothing left waiting once
      the worker has stopped tracking and uninitialized. */
  lemma DeconfigureFromTrackingReachesNone(c: Ctl)
    requires c.state == Tracking && c.worker && c.waiting == {}
    ensures var r := InitializedEvent(TrackingEvent(Deconfigure(c), false), false);
      r.state == NoTracking && r.waiting == {} && !r.worker
      && r.requests == c.requests + [TrackWorker(false), InitializeWorker(false), StopWorker]
  {
    var a := Deconfigure(c);
    assert a.waiting == {DeconfigureAfterUninitialized, UninitializeAfterTrackingStopped};
    var b := TrackingEvent(a, false);
    assert b.waiting == {DeconfigureAfterUninitialized};
  }

  /** Playback needs a configured manager with a worker. The model takes the
      state right after `configure` returns: the poll that follows, which
      processes events for up to a hundred rounds and could let the worker's
      `configured` answer arrive, is not modelled. So an unconfigured manager
      only starts a worker (or warns that it cannot) and then warns. */
  lemma OpenPlaybackSpec(c: Ctl)
    ensures PlaybackOpens(c) <==> IsConfigured(c.state) && c.worker
    ensures !IsConfigured(c.state) ==>
      (OpenPlayback(c).state == c.state
       && OpenPlayback(c).requests == Configure(c).requests
       && OpenPlayback(c).worker == (c.worker || ValidConfig(c))
       && OpenPlayback(c).warnings == c.warnings + (if ValidConfig(c) || !c.worker then 1 else 2))
    ensures PlaybackOpens(c) ==>
      (OpenPlayback(c).state == c.state && InitializedSignal in OpenPlayback(c).signals)
  {
    if PlaybackOpens(c) {
      assert EmitInitialized(c).signals[|c.signals|] == InitializedSignal;
      assert OpenPlayback(c).signals[|c.signals|] == InitializedSignal;
    }
  }

  /** The requests only grow. */
  predicate Extends(c: Ctl, r: Ctl)
  {
    |c.requests| <= |r.requests| && r.requests[..|c.requests|] == c.requests
  }

  /** `deconfigure` keeps the file and the folder, only appends requests,
      and any worker it restarts reads the current file and folder. */
  lemma DeconfigureKeepsPaths(c: Ctl)
    ensures Extends(c, Deconfigure(c))
    ensures Deconfigure(c).configPath == c.configPath && Deconfigure(c).loggingFolder == c.loggingFolder
    ensures forall r :: r in Deconfigure(c).requests[|c.requests|..] && r.StartWorker? ==>
      r == StartWorker(c.configPath, c.loggingFolder)
  {
    var n := |c.requests|;
    var out := Deconfigure(c);
    if IsInitialized(c.state) {
      assert n <= |out.requests| <= n + 1 && out.requests[..n] == c.requests;
      assert out.requests[n..] == [] || (out.requests[n..] == [out.requests[n]] && !out.requests[n].StartWorker?);
    } else {
      var stopped := if c.worker then Ask(c, StopWorker).(worker := false) else c;
      var e := EmitDeconfigured(stopped.(state := NoTracking));
      assert out.requests == e.requests;
      assert stopped.requests[n..] == [] || stopped.requests[n..] == [StopWorker];
      assert e.requests == stopped.requests || e.requests == stopped.requests + [StartWorker(c.configPath, c.loggingFolder)];
    }
  }

  /** The worker requests `SetConfigurationFile` adds name only the new file. */
  lemma SetConfigurationFileUsesNewPath(c: Ctl, path: string)
    ensures Extends(c, SetConfigurationFile(c, path))
    ensures SetConfigurationFile(c, path).configPath == path
    ensures forall r :: r in SetConfigurationFile(c, path).requests[|c.requests|..] && r.StartWorker? ==> r.configPath == path
  {
    if path != c.configPath && IsConfigured(c.state) {
      DeconfigureKeepsPaths(Wait(c.(configPath := path), ConfigureAfterDeconfigure));
    }
  }

  lemma SetLoggingFolderUsesNewFolder(c: Ctl, folder: string)
    ensures Extends(c, SetLoggingFolder(c, folder))
    ensures SetLoggingFolder(c, folder).loggingFolder == folder
    ensures forall r :: r in SetLoggingFolder(c, folder).requests[|c.requests|..] && r.StartWorker? ==> r.loggingFolder == folder
  {
    if folder != c.loggingFolder && IsConfigured(c.state) {
      DeconfigureKeepsPaths(Wait(c.(loggingFolder := folder), ConfigureAfterDeconfigure));
    }
  }

  /** The source's order and the corrected one agree except when the manager
      is exactly CONFIGURED. */
  lemma AsWrittenAgreesAwayFromConfigured(c: Ctl, path: string, folder: string)
    requires c.state != Configured
    ensures SetConfigurationFileAsWritten(c, path) == SetConfigurationFile(c, path)
    ensures SetLoggingFolderAsWritten(c, folder) == SetLoggingFolder(c, folder)
  {
  }

  /** A CONFIGURED manager whose file changes from "a" to "b" reconfigures with
      "a": the new worker reads the old file. */
  lemma SetConfigurationFileAsWrittenUsesOldPath()
    ensures var c := Ctl(Configured, true, {}, "a", "log", map["a" := 1, "b" := 1], [], [], 0);
      var r := SetConfigurationFileAsWritten(c, "b");
      r.configPath == "b" && r.requests == [StopWorker, StartWorker("a", "log")]
      && SetConfigurationFile(c, "b").requests == [StopWorker, StartWorker("b", "log")]
  {
  }

  /** Likewise a new logging folder: the new worker logs to the old folder. */
  lemma SetLoggingFolderAsWrittenUsesOldFolder()
    ensures var c := Ctl(Configured, true, {}, "a", "log", map["a" := 1], [], [], 0);
      var r := SetLoggingFolderAsWritten(c, "new");
      r.loggingFolder == "new" && r.requests == [StopWorker, StartWorker("a", "log")]
      && SetLoggingFolder(c, "new").requests == [StopWorker, StartWorker("a", "new")]
  {
  }
}
