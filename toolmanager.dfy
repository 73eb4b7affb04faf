/** `ToolManagerUsingIGSTK` (`source/service/tracking/cxToolManagerUsingIGSTK.cpp`):
    the tool map with its manual, dominant and reference tools, the tracking
    life cycle driven through the worker thread, playback mode, and the
    position history file.

    The control part of every life-cycle operation is the function of the
    same name in `Tracking`; each method here states that its new `ctl` is
    that function of the old one, and adds what it does to the tools. */
module ToolManagement {
  import opened Common
  import opened Text
  import opened Tools
  import Tracking

  /** The uid of the manual tool. */
  const ManualUid := "ManualTool"
  /** The uid `getTool` resolves to the dominant tool. */
  const ActiveUid := "active"
  /** The pose `initializeManualTool` gives the manual tool (a rotation about
      y and z; only its identity matters here). */
  const ManualStartPose := Pose(1)

  /** The records `loadPositionHistory` gets: one per read, up to the end of
      the file or the first read that fails. */
  function ReadRecords(attempts: seq<Option<Record>>): seq<Record>
  {
    if attempts == [] || attempts[0].None? then [] else [attempts[0].value] + ReadRecords(attempts[1..])
  }

  /** The records are the values of the reads before the first failure. */
  lemma {:induction false} ReadRecordsSpec(attempts: seq<Option<Record>>)
    ensures |ReadRecords(attempts)| <= |attempts|
    ensures forall i :: 0 <= i < |ReadRecords(attempts)| ==> attempts[i] == Some(ReadRecords(attempts)[i])
    ensures |ReadRecords(attempts)| < |attempts| ==> attempts[|ReadRecords(attempts)|].None?
  {
    if attempts != [] && attempts[0].Some? {
      ReadRecordsSpec(attempts[1..]);
    }
  }

  /** Any prefix of successful reads followed by a failure or the end is
      exactly what is read. */
  lemma ReadRecordsOfPrefix(attempts: seq<Option<Record>>, recs: seq<Record>)
    requires |recs| <= |attempts|
    requires forall j :: 0 <= j < |recs| ==> attempts[j] == Some(recs[j])
    requires |recs| == |attempts| || attempts[|recs|].None?
    ensures ReadRecords(attempts) == recs
  {
    ReadRecordsSpec(attempts);
  }

  /** A tool of the tracker worker (`IgstkTool`) as `trackerConfiguredSlot`
      sees it: its uid, types and probe, and whether the `ToolUsingIGSTK`
      built from it is valid. */
  datatype WorkerTool = WorkerTool(uid: string, types: set<ToolType>, hasProbe: bool, valid: bool)

  /** The worker's map is keyed by tool uid, and no tool takes the manual
      tool's uid or the one reserved for the dominant tool. */
  predicate WorkerToolsOk(offered: map<string, WorkerTool>)
  {
    forall k :: k in offered ==> offered[k].uid == k && k != ManualUid && k != ActiveUid
  }

  /** The keys of the worker's tools whose `ToolUsingIGSTK` is valid. */
  function ValidKeys(offered: map<string, WorkerTool>): set<string>
  {
    set k | k in offered && offered[k].valid
  }

  class ToolManager {
    /** State, worker, continuations, configuration file and logging folder. */
    var ctl: Tracking.Ctl
    /** `mTools`, keyed by tool uid. */
    var tools: map<string, Tool>
    const manualTool: Tool
    var dominant: Tool?
    var reference: Tool?
    var playback: bool
    /** What `setPlaybackMode` passes to the playback controller: the start
        of the recorded range and its length. */
    var playbackStart: nat
    var playbackLength: int
    /** `mLastLoadPositionHistory`: only later entries are saved. */
    var watermark: nat
    /** The records the last `savePositionHistory` wrote, in order. */
    var saved: seq<Record>
    /** The uids of the last loaded history that no tool has, as reported. */
    var unknownTools: seq<string>

    /** The manual tool is in `m` under its uid, every tool (and every tool
        a playback tool wraps) is keyed by its uid, and no key is the uid
        reserved for the dominant tool. */
    ghost predicate ToolsValid(m: map<string, Tool>)
    {
      && ManualUid in m && m[ManualUid] == manualTool
      && forall k :: k in m ==> k != ActiveUid && m[k].AnswersTo(k)
    }

    /** The tool map is valid, the manual tool is what it is, and there is
        always a dominant tool. */
    ghost predicate Valid()
      reads this`tools, this`dominant
    {
      && ToolsValid(tools)
      && manualTool.uid == ManualUid && ManualType in manualTool.types && manualTool.base == null
      && dominant != null && (dominant.uid == ManualUid ==> dominant == manualTool)
    }

    /** What `getTool(uid)` returns. */
    function Lookup(uid: string): Tool?
      reads this`tools, this`dominant
    {
      if uid == ActiveUid then dominant
      else if uid in tools then tools[uid]
      else null
    }

    /** `getTool`: "active" names the dominant tool, any other uid the tool
        of that uid, or nothing. */
    method GetTool(uid: string) returns (r: Tool?)
      ensures r == Lookup(uid)
      ensures uid == ActiveUid ==> r == dominant
      ensures uid != ActiveUid ==> (r != null <==> uid in tools)
    {
      if uid == ActiveUid {
        return dominant;
      }
      r := null;
      if uid in tools {
        r := tools[uid];
      }
    }

    /** The outcome of `setDominantTool("ManualTool")` for a manager whose
        dominant tool was `d0` with pose `p0`, the manual tool having had pose
        `m0` and visibility `v0`: the manual tool is dominant and visible and
        has taken over the pose of the tool it replaces. */
    ghost predicate ManualMadeDominant(d0: Tool, p0: Transform, m0: Transform, v0: bool)
      reads this`dominant, manualTool`prMt, manualTool`visible
    {
      dominant == manualTool &&
      if d0 == manualTool then manualTool.prMt == m0 && manualTool.visible == v0
      else manualTool.prMt == p0 && manualTool.visible
    }

    /** `setDominantTool`: nothing happens when the tool is dominant already;
        otherwise a manual dominant tool hands over by hiding the manual tool,
        and a manual new tool takes the old dominant's pose and shows the
        manual tool. The source dereferences the tool it looks up, so the uid
        must name one. */
    method SetDominantTool(uid: string)
      requires Valid()
      requires dominant.uid == uid || Lookup(uid) != null
      modifies this`dominant, manualTool`visible, manualTool`prMt
      ensures Valid()
      ensures old(dominant).uid == uid ==> dominant == old(dominant) && unchanged(manualTool)
      ensures old(dominant).uid != uid ==>
        (dominant == old(Lookup(uid))
         && manualTool.visible == (ManualType in dominant.types || (old(manualTool.visible) && ManualType !in old(dominant).types))
         && manualTool.prMt == (if ManualType in dominant.types then old(dominant.prMt) else old(manualTool.prMt)))
    {
      if dominant.uid == uid {
        return;
      }
      if ManualType in dominant.types {
        manualTool.visible := false;
      }
      var newTool := GetTool(uid);
      if ManualType in newTool.types {
        manualTool.prMt := dominant.prMt;
        manualTool.visible := true;
      }
      dominant := newTool;
    }

    /** Making the manual tool dominant is always possible. */
    method MakeManualDominant()
      requires Valid()
      modifies this`dominant, manualTool`visible, manualTool`prMt
      ensures Valid()
      ensures ManualMadeDominant(old(dominant), old(dominant.prMt), old(manualTool.prMt), old(manualTool.visible))
    {
      SetDominantTool(ManualUid);
    }

    /** `create` together with the constructor: the manual tool is in the map,
        visible, at its start pose and dominant; the configuration file is
        stored without configuring, as the manager starts in NONE. */
    constructor(configPath: string, files: map<string, nat>)
      ensures Valid() && fresh(manualTool)
      ensures ctl == Tracking.Ctl(Tracking.NoTracking, false, {}, configPath, "", files, [], [], 0)
      ensures tools == map[ManualUid := manualTool] && dominant == manualTool && reference == null
      ensures manualTool.visible && manualTool.prMt == ManualStartPose
      ensures !playback && watermark == 0 && saved == [] && unknownTools == []
    {
      ctl := Tracking.Ctl(Tracking.NoTracking, false, {}, configPath, "", files, [], [], 0);
      var m := new Tool(ManualUid, {ManualType}, false, true);
      manualTool := m;
      tools := map[ManualUid := m];
      dominant := null;
      reference := null;
      playback := false;
      playbackStart := 0;
      playbackLength := 0;
      watermark := 0;
      saved := [];
      unknownTools := [];
      new;
      manualTool.visible := true;
      manualTool.prMt := ManualStartPose;
      // `setDominantTool` without a dominant tool: only the manual branch runs
      dominant := manualTool;
    }

    // -------------------------------------------------------------------------
    // The tracking life cycle
    // -------------------------------------------------------------------------

    /** `configure`. */
    method Configure()
      modifies this`ctl
      ensures ctl == Tracking.Configure(old(ctl))
    {
      if ctl.configPath == "" || ctl.configPath !in ctl.files {
        ctl := Tracking.Warn(ctl);
        return;
      }
      if ctl.files[ctl.configPath] == 0 {
        ctl := Tracking.Warn(ctl);
        return;
      }
      ctl := ctl.(worker := true);
      ctl := Tracking.Ask(ctl, Tracking.StartWorker(ctl.configPath, ctl.loggingFolder));
    }

    /** `initialize`. */
    method Initialize()
      modifies this`ctl
      ensures ctl == Tracking.Initialize(old(ctl))
    {
      if !Tracking.IsConfigured(ctl.state) {
        ctl := Tracking.Wait(ctl, Tracking.InitializeAfterConfig);
        Configure();
        return;
      }
      if ctl.worker {
        ctl := Tracking.Ask(ctl, Tracking.InitializeWorker(true));
      } else {
        ctl := Tracking.Warn(ctl);
      }
    }

    /** `startTracking`. */
    method StartTracking()
      modifies this`ctl
      ensures ctl == Tracking.StartTracking(old(ctl))
    {
      if !Tracking.IsInitialized(ctl.state) {
        ctl := Tracking.Wait(ctl, Tracking.StartTrackingAfterInit);
        Initialize();
        return;
      }
      if ctl.worker {
        ctl := Tracking.Ask(ctl, Tracking.TrackWorker(true));
      }
    }

    /** `stopTracking`. */
    method StopTracking()
      modifies this`ctl
      ensures ctl == Tracking.StopTracking(old(ctl))
    {
      if !Tracking.IsTracking(ctl.state) {
        return;
      }
      if ctl.worker {
        ctl := Tracking.Ask(ctl, Tracking.TrackWorker(false));
      }
    }

    /** `uninitialize`, also connected to the worker's `error` signal. */
    method Uninitialize()
      modifies this`ctl
      ensures ctl == Tracking.Uninitialize(old(ctl))
    {
      if Tracking.IsTracking(ctl.state) {
        ctl := Tracking.Wait(ctl, Tracking.UninitializeAfterTrackingStopped);
        StopTracking();
        return;
      }
      if !Tracking.IsInitialized(ctl.state) {
        return;
      }
      if ctl.worker {
        ctl := Tracking.Ask(ctl, Tracking.InitializeWorker(false));
      }
    }

    /** `emit deconfigured()`, running `configureAfterDeconfigureSlot` if it
        is connected. */
    method EmitDeconfigured()
      modifies this`ctl
      ensures ctl == Tracking.EmitDeconfigured(old(ctl))
    {
      var connected := Tracking.ConfigureAfterDeconfigure in ctl.waiting;
      ctl := Tracking.Emit(ctl, Tracking.DeconfiguredSignal);
      if connected {
        ctl := Tracking.Fire(ctl, Tracking.ConfigureAfterDeconfigure);
        Configure();
      }
    }

    /** `emit configured()`, running `initializeAfterConfigSlot` if connected. */
    method EmitConfigured()
      modifies this`ctl
      ensures ctl == Tracking.EmitConfigured(old(ctl))
    {
      var connected := Tracking.InitializeAfterConfig in ctl.waiting;
      ctl := Tracking.Emit(ctl, Tracking.ConfiguredSignal);
      if connected {
        ctl := Tracking.Fire(ctl, Tracking.InitializeAfterConfig);
        Initialize();
      }
    }

    /** `emit initialized()`, running `startTrackingAfterInitSlot` if connected. */
    method EmitInitialized()
      modifies this`ctl
      ensures ctl == Tracking.EmitInitialized(old(ctl))
    {
      var connected := Tracking.StartTrackingAfterInit in ctl.waiting;
      ctl := Tracking.Emit(ctl, Tracking.InitializedSignal);
      if connected {
        ctl := Tracking.Fire(ctl, Tracking.StartTrackingAfterInit);
        StartTracking();
      }
    }

    /** `emit trackingStopped()`, running `uninitializeAfterTrackingStoppedSlot`
        if connected. */
    method EmitTrackingStopped()
      modifies this`ctl
      ensures ctl == Tracking.EmitTrackingStopped(old(ctl))
    {
      var connected := Tracking.UninitializeAfterTrackingStopped in ctl.waiting;
      ctl := Tracking.Emit(ctl, Tracking.TrackingStoppedSignal);
      if connected {
        ctl := Tracking.Fire(ctl, Tracking.UninitializeAfterTrackingStopped);
        Uninitialize();
      }
    }

    /** `deconfigure`: below INITIALIZED the worker is stopped and the manual
        tool becomes dominant; otherwise it only starts uninitializing. */
    method Deconfigure()
      requires Valid()
      modifies this`ctl, this`dominant, manualTool`visible, manualTool`prMt
      ensures Valid()
      ensures ctl == Tracking.Deconfigure(old(ctl))
      ensures !Tracking.IsInitialized(old(ctl.state)) ==>
        ManualMadeDominant(old(dominant), old(dominant.prMt), old(manualTool.prMt), old(manualTool.visible))
      ensures Tracking.IsInitialized(old(ctl.state)) ==> dominant == old(dominant) && unchanged(manualTool)
    {
      if Tracking.IsInitialized(ctl.state) {
        ctl := Tracking.Wait(ctl, Tracking.DeconfigureAfterUninitialized);
        Uninitialize();
        return;
      }
      if ctl.worker {
        ctl := Tracking.Ask(ctl, Tracking.StopWorker).(worker := false);
      }
      MakeManualDominant();
      ctl := ctl.(state := Tracking.NoTracking);
      EmitDeconfigured();
      ctl := Tracking.Emit(ctl, Tracking.StateChangedSignal);
    }

    /** `emit uninitialized()`, running `deconfigureAfterUninitializedSlot`
        if connected. */
    method EmitUninitialized()
      requires Valid()
      modifies this`ctl, this`dominant, manualTool`visible, manualTool`prMt
      ensures Valid()
      ensures ctl == Tracking.EmitUninitialized(old(ctl))
      ensures Tracking.DeconfigureAfterUninitialized in old(ctl.waiting) && !Tracking.IsInitialized(old(ctl.state)) ==>
        ManualMadeDominant(old(dominant), old(dominant.prMt), old(manualTool.prMt), old(manualTool.visible))
      ensures !(Tracking.DeconfigureAfterUninitialized in old(ctl.waiting) && !Tracking.IsInitialized(old(ctl.state))) ==>
        dominant == old(dominant) && unchanged(manualTool)
    {
      var connected := Tracking.DeconfigureAfterUninitialized in ctl.waiting;
      ctl := Tracking.Emit(ctl, Tracking.UninitializedSignal);
      if connected {
        ctl := Tracking.Fire(ctl, Tracking.DeconfigureAfterUninitialized);
        Deconfigure();
      }
    }

    /** `initializedSlot`: the worker's answer to an (un)initialize request. */
    method InitializedSlot(ok: bool)
      requires Valid()
      modifies this`ctl, this`dominant, manualTool`visible, manualTool`prMt
      ensures Valid()
      ensures ctl == Tracking.InitializedEvent(old(ctl), ok)
      ensures !ok && Tracking.DeconfigureAfterUninitialized in old(ctl.waiting) ==>
        ManualMadeDominant(old(dominant), old(dominant.prMt), old(manualTool.prMt), old(manualTool.visible))
      ensures ok || Tracking.DeconfigureAfterUninitialized !in old(ctl.waiting) ==>
        dominant == old(dominant) && unchanged(manualTool)
    {
      if ok {
        ctl := ctl.(state := Tracking.Initialized);
        ctl := Tracking.Emit(ctl, Tracking.StateChangedSignal);
        EmitInitialized();
      } else {
        ctl := ctl.(state := Tracking.Configured);
        ctl := Tracking.Emit(ctl, Tracking.StateChangedSignal);
        EmitUninitialized();
      }
    }

    /** `trackerTrackingSlot`: the worker's answer to a track request. */
    method TrackingSlot(ok: bool)
      modifies this`ctl
      ensures ctl == Tracking.TrackingEvent(old(ctl), ok)
    {
      if ok {
        ctl := ctl.(state := Tracking.Tracking);
        ctl := Tracking.Emit(ctl, Tracking.StateChangedSignal);
        ctl := Tracking.Emit(ctl, Tracking.TrackingStartedSignal);
      } else {
        ctl := ctl.(state := Tracking.Initialized);
        ctl := Tracking.Emit(ctl, Tracking.StateChangedSignal);
        EmitTrackingStopped();
      }
    }

    /** `setState`: one step towards the target. */
    method SetState(target: Tracking.TrackState)
      requires Valid()
      modifies this`ctl, this`dominant, manualTool`visible, manualTool`prMt
      ensures Valid()
      ensures ctl == Tracking.SetState(old(ctl), target)
      ensures target == Tracking.NoTracking && old(ctl.state) == Tracking.Configured ==>
        ManualMadeDominant(old(dominant), old(dominant.prMt), old(manualTool.prMt), old(manualTool.visible))
      ensures !(target == Tracking.NoTracking && old(ctl.state) == Tracking.Configured) ==>
        dominant == old(dominant) && unchanged(manualTool)
    {
      if ctl.state == target {
        return;
      }
      if Tracking.Rank(target) > Tracking.Rank(ctl.state) {
        if target == Tracking.Tracking {
          StartTracking();
        } else if target == Tracking.Initialized {
          Initialize();
        } else if target == Tracking.Configured {
          Configure();
        }
      } else {
        if target == Tracking.Initialized {
          StopTracking();
        } else if target == Tracking.Configured {
          Uninitialize();
        } else if target == Tracking.NoTracking {
          Deconfigure();
        }
      }
    }

    /** `setConfigurationFile`: a new file while configured reconfigures with
        it (the path is stored before `deconfigure`, see the findings). */
    method SetConfigurationFile(path: string)
      requires Valid()
      modifies this`ctl, this`dominant, manualTool`visible, manualTool`prMt
      ensures Valid()
      ensures ctl == Tracking.SetConfigurationFile(old(ctl), path)
      ensures path != old(ctl.configPath) && old(ctl.state) == Tracking.Configured ==>
        ManualMadeDominant(old(dominant), old(dominant.prMt), old(manualTool.prMt), old(manualTool.visible))
      ensures !(path != old(ctl.configPath) && old(ctl.state) == Tracking.Configured) ==>
        dominant == old(dominant) && unchanged(manualTool)
    {
      if path == ctl.configPath {
        return;
      }
      var configured := Tracking.IsConfigured(ctl.state);
      ctl := ctl.(configPath := path);
      if configured {
        ctl := Tracking.Wait(ctl, Tracking.ConfigureAfterDeconfigure);
        Deconfigure();
      }
    }

    /** `setLoggingFolder`, likewise. */
    method SetLoggingFolder(folder: string)
      requires Valid()
      modifies this`ctl, this`dominant, manualTool`visible, manualTool`prMt
      ensures Valid()
      ensures ctl == Tracking.SetLoggingFolder(old(ctl), folder)
      ensures folder != old(ctl.loggingFolder) && old(ctl.state) == Tracking.Configured ==>
        ManualMadeDominant(old(dominant), old(dominant.prMt), old(manualTool.prMt), old(manualTool.visible))
      ensures !(folder != old(ctl.loggingFolder) && old(ctl.state) == Tracking.Configured) ==>
        dominant == old(dominant) && unchanged(manualTool)
    {
      if folder == ctl.loggingFolder {
        return;
      }
      var configured := Tracking.IsConfigured(ctl.state);
      ctl := ctl.(loggingFolder := folder);
      if configured {
        ctl := Tracking.Wait(ctl, Tracking.ConfigureAfterDeconfigure);
        Deconfigure();
      }
    }

    /** `trackerConfiguredSlot`: the worker's answer to `configure`. A
        failure deconfigures; a success adds the worker's valid tools, makes
        the manual tool dominant, enters CONFIGURED, loads the position
        history from `attempts` (the reads of the history file) and
        announces it. Without a worker the answer is ignored. */
    method TrackerConfigured(ok: bool, offered: map<string, WorkerTool>, referenceKey: Option<string>,
                             attempts: seq<Option<Record>>, now: nat)
      requires Valid() && WorkerToolsOk(offered)
      modifies this`ctl, this`tools, this`reference, this`dominant, manualTool`visible, manualTool`prMt
      modifies this`watermark, this`unknownTools, Reachable()`history
      ensures Valid()
      ensures ctl == Tracking.ConfiguredEvent(old(ctl), ok)
      ensures !ok || !old(ctl.worker) ==> tools == old(tools) && reference == old(reference)
      ensures !ok && !Tracking.IsInitialized(old(ctl.state)) ==> dominant == manualTool
      ensures ok && old(ctl.worker) ==>
        && tools.Keys == old(tools).Keys + ValidKeys(offered)
        && (forall k :: k in old(tools) && k !in ValidKeys(offered) ==> tools[k] == old(tools)[k])
        && (forall k :: k in ValidKeys(offered) ==> fresh(tools[k]) && BuiltFrom(tools[k], offered[k]))
        && reference == (if referenceKey.Some? && referenceKey.value in ValidKeys(offered)
                         then tools[referenceKey.value] else old(reference))
        && dominant == manualTool && watermark == now
    {
      if !ok {
        Deconfigure();
        return;
      }
      if !ctl.worker {
        return;
      }
      AddWorkerTools(offered, referenceKey);
      MakeManualDominant();
      ctl := ctl.(state := Tracking.Configured);
      LoadPositionHistory(attempts, now);
      EmitConfigured();
      ctl := Tracking.Emit(ctl, Tracking.StateChangedSignal);
    }

    /** `t` is the `ToolUsingIGSTK` built from the worker's tool `w`. */
    static ghost predicate BuiltFrom(t: Tool, w: WorkerTool)
    {
      t.uid == w.uid && t.types == w.types && t.hasProbe == w.hasProbe && t.valid == w.valid && t.base == null
    }

    /** The tool loop of `trackerConfiguredSlot`: a `ToolUsingIGSTK` for every
        tool of the worker, in key order; the valid ones join the tool map
        under their keys, and the one built from the worker's reference tool
        (under `referenceKey`) becomes the reference tool if it is valid. */
    method AddWorkerTools(offered: map<string, WorkerTool>, referenceKey: Option<string>)
      requires Valid() && WorkerToolsOk(offered)
      modifies this`tools, this`reference
      ensures Valid()
      ensures tools.Keys == old(tools).Keys + ValidKeys(offered)
      ensures forall k :: k in old(tools) && k !in ValidKeys(offered) ==> tools[k] == old(tools)[k]
      ensures forall k :: k in ValidKeys(offered) ==> fresh(tools[k]) && BuiltFrom(tools[k], offered[k])
      ensures reference == if referenceKey.Some? && referenceKey.value in ValidKeys(offered)
                           then tools[referenceKey.value] else old(reference)
    {
      var added := BuildWorkerTools(offered);
      if referenceKey.Some? && referenceKey.value in added {
        reference := added[referenceKey.value];
      }
      AddedKeepsValid(tools, added);
      tools := tools + added;
    }

    /** Adding tools keyed by their uids, none under the reserved uids, keeps
        the tool map valid. */
    lemma AddedKeepsValid(m: map<string, Tool>, added: map<string, Tool>)
      requires ToolsValid(m)
      requires forall k :: k in added ==> k != ManualUid && k != ActiveUid && added[k].AnswersTo(k)
      ensures ToolsValid(m + added)
    {
    }

    /** The loop proper: the valid tools built from the worker's, by key. */
    method BuildWorkerTools(offered: map<string, WorkerTool>) returns (added: map<string, Tool>)
      requires WorkerToolsOk(offered)
      ensures added.Keys == ValidKeys(offered)
      ensures forall k :: k in added ==>
        fresh(added[k]) && BuiltFrom(added[k], offered[k]) && added[k].AnswersTo(k)
    {
      var keys := SortedKeys(offered.Keys);
      added := map[];
      for i := 0 to |keys|
        invariant forall k :: k in added <==> k in Visited(keys, i) && offered[k].valid
        invariant forall k :: k in added ==>
          fresh(added[k]) && BuiltFrom(added[k], offered[k]) && added[k].AnswersTo(k)
      {
        VisitedStep(keys, i);
        var w := offered[keys[i]];
        var tool := new Tool(w.uid, w.types, w.hasProbe, w.valid);
        if tool.valid {
          added := added[keys[i] := tool];
        }
      }
      VisitedAll(keys, offered.Keys);
    }

    // -------------------------------------------------------------------------
    // The position history file
    // -------------------------------------------------------------------------

    /** The tools the history loader can reach by uid. */
    ghost function Reachable(): set<Tool>
      reads this`tools, this`dominant
    {
      tools.Values + if dominant == null then {} else {dominant}
    }

    /** The uids `getTool` resolves to `t`. */
    ghost function NamesOf(t: Tool): set<string>
      reads this`tools, this`dominant
    {
      (set u | u in tools && u != ActiveUid && tools[u] == t) + if dominant == t then {ActiveUid} else {}
    }

    lemma NamesOfSpec(t: Tool, u: string)
      ensures u in NamesOf(t) <==> Lookup(u) == t
    {
    }

    /** A history after loading those of `recs` whose uid is in `names`. */
    static function Loaded(h: map<nat, Transform>, recs: seq<Record>, names: set<string>): map<nat, Transform>
    {
      if recs == [] then h
      else
        var last := recs[|recs| - 1];
        var prev := Loaded(h, recs[..|recs| - 1], names);
        if last.toolUid in names then prev[last.stamp := last.pose] else prev
    }

    /** The uids of the records no tool is found for, in file order. */
    ghost function Missing(recs: seq<Record>): seq<string>
      reads this`tools, this`dominant
    {
      if recs == [] then []
      else
        var last := recs[|recs| - 1];
        Missing(recs[..|recs| - 1]) + if Lookup(last.toolUid) == null then [last.toolUid] else []
    }

    /** A loaded history keeps the old entries and gains the timestamp of every
        record for the tool; each timestamp holds the pose of its last record. */
    static lemma {:induction false} LoadedSpec(h: map<nat, Transform>, recs: seq<Record>, names: set<string>, x: nat)
      ensures x in Loaded(h, recs, names) <==>
        (x in h || exists i :: 0 <= i < |recs| && recs[i].toolUid in names && recs[i].stamp == x)
      ensures x in h && (forall i :: 0 <= i < |recs| && recs[i].toolUid in names ==> recs[i].stamp != x) ==>
        Loaded(h, recs, names)[x] == h[x]
      ensures forall i ::
        (0 <= i < |recs| && recs[i].toolUid in names && recs[i].stamp == x
         && forall j :: i < j < |recs| && recs[j].toolUid in names ==> recs[j].stamp != x) ==>
        x in Loaded(h, recs, names) && Loaded(h, recs, names)[x] == recs[i].pose
    {
      if recs != [] {
        var n := |recs| - 1;
        var init := recs[..n];
        LoadedSpec(h, init, names, x);
        assert forall i :: 0 <= i < n ==> init[i] == recs[i];
        if !(x in h) && recs[n].toolUid in names && recs[n].stamp == x {
          assert x in Loaded(h, recs, names);
        }
      }
    }

    /** Exactly the uids that name no tool are missing. */
    lemma {:induction false} MissingSpec(recs: seq<Record>)
      ensures forall u :: u in Missing(recs) <==>
        (Lookup(u) == null && exists i :: 0 <= i < |recs| && recs[i].toolUid == u)
    {
      if recs != [] {
        var n := |recs| - 1;
        MissingSpec(recs[..n]);
        assert forall i :: 0 <= i < n ==> recs[..n][i] == recs[i];
        forall u | Lookup(u) == null && exists i :: 0 <= i < |recs| && recs[i].toolUid == u
          ensures u in Missing(recs)
        {
          var i :| 0 <= i < |recs| && recs[i].toolUid == u;
          if i < n {
            assert recs[..n][i].toolUid == u;
          }
        }
      }
    }

    static lemma LoadedStep(recs: seq<Record>, r: Record)
      ensures forall h, names ::
        Loaded(h, recs + [r], names) == if r.toolUid in names then Loaded(h, recs, names)[r.stamp := r.pose] else Loaded(h, recs, names)
    {
      assert (recs + [r])[..|recs|] == recs;
    }

    lemma MissingStep(recs: seq<Record>, r: Record)
      ensures Missing(recs + [r]) == Missing(recs) + if Lookup(r.toolUid) == null then [r.toolUid] else []
    {
      assert (recs + [r])[..|recs|] == recs;
    }

    /** Every reachable tool's history is its history in `h0` with the
        records `recs` loaded. */
    ghost predicate HistoriesLoaded(h0: map<Tool, map<nat, Transform>>, recs: seq<Record>)
      reads this`tools, this`dominant, Reachable()`history
    {
      forall t :: t in Reachable() ==> t in h0 && t.history == Loaded(h0[t], recs, NamesOf(t))
    }

    /** One step of `loadPositionHistory`: the record's pose goes into the
        history of the tool its uid names, if there is one. `h0` holds the
        histories from before the first record. */
    method LoadRecord(r: Record, ghost h0: map<Tool, map<nat, Transform>>, ghost recs: seq<Record>) returns (found: bool)
      requires HistoriesLoaded(h0, recs)
      modifies Reachable()`history
      ensures found == (Lookup(r.toolUid) != null)
      ensures HistoriesLoaded(h0, recs + [r])
    {
      LoadedStep(recs, r);
      var current := GetTool(r.toolUid);
      found := current != null;
      if current != null {
        NamesOfSpec(current, r.toolUid);
        current.history := current.history[r.stamp := r.pose];
      }
      forall t | t in old(Reachable())
        ensures t.history == Loaded(h0[t], recs + [r], NamesOf(t))
      {
        NamesOfSpec(t, r.toolUid);
      }
    }

    /** The reading loop of `loadPositionHistory`: reads until the end of
        the file or the first failed read, loads each record, and collects
        the uids no tool is found for. */
    method LoadRecords(attempts: seq<Option<Record>>, ghost h0: map<Tool, map<nat, Transform>>)
      returns (ghost recs: seq<Record>, missing: seq<string>)
      requires HistoriesLoaded(h0, [])
      modifies Reachable()`history
      ensures recs == ReadRecords(attempts)
      ensures HistoriesLoaded(h0, recs)
      ensures missing == Missing(recs)
    {
      recs := [];
      missing := [];
      var i := 0;
      while i < |attempts|
        invariant 0 <= i <= |attempts|
        invariant |recs| == i && forall j :: 0 <= j < i ==> attempts[j] == Some(recs[j])
        invariant missing == Missing(recs)
        invariant HistoriesLoaded(h0, recs)
      {
        if attempts[i].None? {
          break;
        }
        var r := attempts[i].value;
        var found := LoadRecord(r, h0, recs);
        if !found {
          missing := missing + [r.toolUid];
        }
        MissingStep(recs, r);
        recs := recs + [r];
        i := i + 1;
      }
      ReadRecordsOfPrefix(attempts, recs);
    }

    /** `loadPositionHistory`: adds each record read to the history of the
        tool of its uid, reports the uids without a tool once each, and
        moves the watermark. */
    method LoadPositionHistory(attempts: seq<Option<Record>>, now: nat)
      modifies this`watermark, this`unknownTools, Reachable()`history
      ensures forall t :: t in old(Reachable()) ==> t.history == Loaded(old(t.history), ReadRecords(attempts), NamesOf(t))
      ensures unknownTools == Reported(Missing(ReadRecords(attempts)), {})
      ensures watermark == now
    {
      ghost var reach: set<Tool> := Reachable();
      ghost var h0: map<Tool, map<nat, Transform>> := map t | t in reach :: t.history;
      var recs, missing := LoadRecords(attempts, h0);
      assert Reachable() == reach;
      unknownTools := Reported(missing, {});
      watermark := now;
      assert HistoriesLoaded(h0, recs);
      forall t | t in reach
        ensures t.history == Loaded(h0[t], ReadRecords(attempts), NamesOf(t))
      {
      }
    }

    /** The records written for one history: one per timestamp of `stamps`. */
    static function RecordsOf(h: map<nat, Transform>, stamps: seq<nat>, uid: string): (r: seq<Record>)
      requires forall x :: x in stamps ==> x in h
      ensures |r| == |stamps|
      ensures forall i :: 0 <= i < |r| ==> r[i] == Record(h[stamps[i]], stamps[i], uid)
    {
      if stamps == [] then []
      else
        var n := |stamps| - 1;
        RecordsOf(h, stamps[..n], uid) + [Record(h[stamps[n]], stamps[n], uid)]
    }

    /** The timestamps of a history at or after the watermark. */
    static function Since(h: map<nat, Transform>, w: nat): set<nat>
    {
      set x | x in h && x >= w
    }

    /** The records written for one history: its entries at or after the
        watermark, in timestamp order. */
    static ghost function HistoryRecords(h: map<nat, Transform>, w: nat, uid: string): seq<Record>
    {
      SortedIntsSpec(Since(h, w));
      RecordsOf(h, SortedInts(Since(h, w)), uid)
    }

    /** What `savePositionHistory` writes for the tools of `keys`, in order: the
        entries at or after the watermark, each tool's in timestamp order. */
    ghost function SavedRecords(keys: seq<string>, w: nat): seq<Record>
      reads this`tools, tools.Values
    {
      if keys == [] then []
      else
        var n := |keys| - 1;
        if keys[n] !in tools then SavedRecords(keys[..n], w)
        else
          var t := tools[keys[n]];
          SavedRecords(keys[..n], w) + HistoryRecords(t.history, w, t.uid)
    }

    lemma SavedRecordsStep(keys: seq<string>, i: nat, w: nat)
      requires i < |keys| && keys[i] in tools
      ensures SavedRecords(keys[..i + 1], w) == SavedRecords(keys[..i], w) + HistoryRecords(tools[keys[i]].history, w, tools[keys[i]].uid)
    {
      assert keys[..i + 1][..i] == keys[..i];
    }

    /** A record is written exactly when it is an entry at or after the
        watermark of one of the tools. */
    lemma {:induction false} SavedRecordsSpec(keys: seq<string>, w: nat, rec: Record)
      ensures rec in SavedRecords(keys, w) <==>
        exists k :: k in keys && k in tools && rec.toolUid == tools[k].uid && rec.stamp >= w
          && rec.stamp in tools[k].history && rec.pose == tools[k].history[rec.stamp]
    {
      if keys != [] {
        var n := |keys| - 1;
        var front := keys[..n];
        SavedRecordsSpec(front, w, rec);
        assert keys == front + [keys[n]];
        if keys[n] in tools {
          var t := tools[keys[n]];
          HistoryRecordsSpec(t.history, w, t.uid, rec);
          assert SavedRecords(keys, w) == SavedRecords(front, w) + HistoryRecords(t.history, w, t.uid);
        }
      }
    }

    /** The records written for one history are exactly its entries at or
        after the watermark, under the given uid. */
    static lemma HistoryRecordsSpec(h: map<nat, Transform>, w: nat, uid: string, rec: Record)
      ensures rec in HistoryRecords(h, w, uid) <==>
        rec.toolUid == uid && rec.stamp >= w && rec.stamp in h && rec.pose == h[rec.stamp]
    {
      var stamps := SortedInts(Since(h, w));
      SortedIntsSpec(Since(h, w));
      var mine := RecordsOf(h, stamps, uid);
      assert HistoryRecords(h, w, uid) == mine;
      if rec.toolUid == uid && rec.stamp >= w && rec.stamp in h && rec.pose == h[rec.stamp] {
        assert rec.stamp in stamps;
        var i :| 0 <= i < |stamps| && stamps[i] == rec.stamp;
        assert mine[i] == rec;
      }
    }

    /** The records the writer gets for one tool: its entries at or after the
        watermark, in timestamp order. */
    static method WriteHistory(t: Tool, w: nat) returns (out: seq<Record>)
      ensures out == HistoryRecords(t.history, w, t.uid)
    {
      var stamps := SortedStamps(Since(t.history, w));
      assert forall x :: x in stamps ==> x in t.history by {
        SortedIntsSpec(Since(t.history, w));
      }
      out := [];
      for j := 0 to |stamps|
        invariant out == RecordsOf(t.history, stamps[..j], t.uid)
      {
        assert stamps[..j + 1][..j] == stamps[..j];
        assert stamps[j] in stamps;
        out := out + [Record(t.history[stamps[j]], stamps[j], t.uid)];
      }
      assert stamps[..|stamps|] == stamps;
    }

    /** `savePositionHistory`: writes the entries of every tool, in uid order,
        at or after the watermark, then moves the watermark. */
    method SavePositionHistory(now: nat)
      modifies this`saved, this`watermark
      ensures saved == SavedRecords(SortedSeq(tools.Keys), old(watermark))
      ensures watermark == now
    {
      var keys := SortedKeys(tools.Keys);
      saved := WriteTools(keys, watermark);
      watermark := now;
    }

    /** The records written for the tools of `keys`, in that order. */
    method WriteTools(keys: seq<string>, w: nat) returns (out: seq<Record>)
      requires forall k :: k in keys ==> k in tools
      ensures out == SavedRecords(keys, w)
    {
      out := [];
      for i := 0 to |keys|
        invariant out == SavedRecords(keys[..i], w)
      {
        var written := WriteHistory(tools[keys[i]], w);
        SavedRecordsStep(keys, i, w);
        out := out + written;
      }
      assert keys[..|keys|] == keys;
    }

    /** Loading what was saved changes no history: every written record is an
        entry of the tool its uid names. */
    lemma LoadingSavedKeepsHistories(w: nat, t: Tool)
      requires Valid() && t in tools.Values
      ensures Loaded(t.history, SavedRecords(SortedSeq(tools.Keys), w), NamesOf(t)) == t.history
      ensures Missing(SavedRecords(SortedSeq(tools.Keys), w)) == []
    {
      SortedSeqSpec(tools.Keys);
      var recs := SavedRecords(SortedSeq(tools.Keys), w);
      forall i | 0 <= i < |recs|
        ensures recs[i].toolUid in tools
        ensures Lookup(recs[i].toolUid) == tools[recs[i].toolUid]
        ensures recs[i].stamp in tools[recs[i].toolUid].history
        ensures tools[recs[i].toolUid].history[recs[i].stamp] == recs[i].pose
      {
        SavedRecordsSpec(SortedSeq(tools.Keys), w, recs[i]);
      }
      forall i | 0 <= i < |recs| && recs[i].toolUid in NamesOf(t)
        ensures recs[i].stamp in t.history && t.history[recs[i].stamp] == recs[i].pose
      {
        NamesOfSpec(t, recs[i].toolUid);
      }
      LoadedIdle(t.history, recs, NamesOf(t));
      MissingIdle(recs);
    }

    /** Loading what a save wrote into any history `h0` of a tool whose names
        reach, among the saved tools, only the tool `k`: every entry of `k` the
        save covered is there with its saved pose, and nothing else is added. */
    lemma LoadSavedInto(w: nat, k: string, names: set<string>, h0: map<nat, Transform>)
      requires Valid() && k in tools && k in names
      requires forall u :: u in names && u in tools ==> u == k
      ensures var loaded := Loaded(h0, SavedRecords(SortedSeq(tools.Keys), w), names);
        (forall s :: s in tools[k].history && s >= w ==> s in loaded && loaded[s] == tools[k].history[s])
        && (forall x :: x in loaded ==> x in h0 || (x in tools[k].history && x >= w))
    {
      var keys := SortedSeq(tools.Keys);
      var recs := SavedRecords(keys, w);
      var loaded := Loaded(h0, recs, names);
      var h := tools[k].history;
      SortedSeqSpec(tools.Keys);
      forall i | 0 <= i < |recs| && recs[i].toolUid in names
        ensures recs[i].stamp in h && recs[i].stamp >= w && h[recs[i].stamp] == recs[i].pose
      {
        SavedRecordsSpec(keys, w, recs[i]);
        var k2 :| k2 in keys && k2 in tools && recs[i].toolUid == tools[k2].uid && recs[i].stamp >= w
          && recs[i].stamp in tools[k2].history && recs[i].pose == tools[k2].history[recs[i].stamp];
        assert tools[k2].AnswersTo(k2);
      }
      forall s | s in h && s >= w
        ensures s in loaded && loaded[s] == h[s]
      {
        var rec := Record(h[s], s, k);
        assert tools[k].AnswersTo(k);
        assert k in keys;
        SavedRecordsSpec(keys, w, rec);
        var i0 :| 0 <= i0 < |recs| && recs[i0] == rec;
        var i := LastFor(recs, names, s, i0);
        LoadedSpec(h0, recs, names, s);
      }
      forall x | x in loaded
        ensures x in h0 || (x in h && x >= w)
      {
        LoadedSpec(h0, recs, names, x);
      }
    }

    /** The last record for `names` with timestamp `s`, at or after `i0`. */
    static lemma LastFor(recs: seq<Record>, names: set<string>, s: nat, i0: nat) returns (i: nat)
      requires i0 < |recs| && recs[i0].toolUid in names && recs[i0].stamp == s
      ensures i0 <= i < |recs| && recs[i].toolUid in names && recs[i].stamp == s
      ensures forall j :: i < j < |recs| && recs[j].toolUid in names ==> recs[j].stamp != s
    {
      i := |recs| - 1;
      while !(recs[i].toolUid in names && recs[i].stamp == s)
        invariant i0 <= i < |recs|
        invariant forall j :: i < j < |recs| && recs[j].toolUid in names ==> recs[j].stamp != s
        decreases i
      {
        i := i - 1;
      }
    }

    /** The save and load round trip into newly configured tools: when the
        tools of `other` (say, those a later `trackerConfiguredSlot` built)
        load what this manager saved, a tool `t` of `other` whose uid was a
        saved tool's ends up with every entry that tool had at or after the
        watermark, with its pose, whatever `t` held before; any other timestamp
        it holds it held before. */
    lemma SavedRestoredInto(w: nat, other: ToolManager, t: Tool, h0: map<nat, Transform>)
      requires Valid() && other.Valid() && t in other.tools.Values && t.uid in tools
      ensures var loaded := Loaded(h0, SavedRecords(SortedSeq(tools.Keys), w), other.NamesOf(t));
        (forall s :: s in tools[t.uid].history && s >= w ==> s in loaded && loaded[s] == tools[t.uid].history[s])
        && (forall x :: x in loaded ==> x in h0 || (x in tools[t.uid].history && x >= w))
    {
      var names := other.NamesOf(t);
      forall u | u in names && u in tools
        ensures u == t.uid
      {
        if u != ActiveUid {
          assert other.tools[u] == t && t.AnswersTo(u);
        }
      }
      var u0 :| u0 in other.tools && other.tools[u0] == t;
      assert t.AnswersTo(u0);
      assert t.uid in names;
      LoadSavedInto(w, t.uid, names, h0);
    }

    /** Records that only repeat entries of the history leave it as it is. */
    static lemma {:induction false} LoadedIdle(h: map<nat, Transform>, recs: seq<Record>, names: set<string>)
      requires forall i :: 0 <= i < |recs| && recs[i].toolUid in names ==>
        recs[i].stamp in h && h[recs[i].stamp] == recs[i].pose
      ensures Loaded(h, recs, names) == h
    {
      if recs != [] {
        var n := |recs| - 1;
        assert forall i :: 0 <= i < n ==> recs[..n][i] == recs[i];
        LoadedIdle(h, recs[..n], names);
      }
    }

    /** Records whose uids all name tools miss nothing. */
    lemma {:induction false} MissingIdle(recs: seq<Record>)
      requires forall i :: 0 <= i < |recs| ==> Lookup(recs[i].toolUid) != null
      ensures Missing(recs) == []
    {
      if recs != [] {
        var n := |recs| - 1;
        assert forall i :: 0 <= i < n ==> recs[..n][i] == recs[i];
        MissingIdle(recs[..n]);
      }
    }

    // -------------------------------------------------------------------------
    // Choosing tools
    // -------------------------------------------------------------------------

    /** A tool with a valid probe, and visible if `visibleOnly`. */
    predicate IsProbe(t: Tool, visibleOnly: bool)
      reads t`visible
    {
      t.hasProbe && (!visibleOnly || t.visible)
    }

    /** The keys of the tools `IsProbe` accepts. */
    ghost function ProbeKeys(visibleOnly: bool): set<string>
      reads this`tools, tools.Values`visible
    {
      set k | k in tools && IsProbe(tools[k], visibleOnly)
    }

    /** The first position of `keys` whose tool `IsProbe` accepts, or `|keys|`. */
    method FirstProbeIndex(keys: seq<string>, visibleOnly: bool) returns (i: nat)
      requires forall k :: k in keys ==> k in tools
      ensures i <= |keys|
      ensures forall j :: 0 <= j < i ==> !IsProbe(tools[keys[j]], visibleOnly)
      ensures i < |keys| ==> IsProbe(tools[keys[i]], visibleOnly)
    {
      i := 0;
      while i < |keys|
        invariant i <= |keys|
        invariant forall j :: 0 <= j < i ==> !IsProbe(tools[keys[j]], visibleOnly)
      {
        if IsProbe(tools[keys[i]], visibleOnly) {
          return;
        }
        i := i + 1;
      }
    }

    /** The first tool in uid order that `IsProbe` accepts, or null. */
    method FirstProbe(visibleOnly: bool) returns (r: Tool?)
      ensures ProbeKeys(visibleOnly) == {} ==> r == null
      ensures ProbeKeys(visibleOnly) != {} ==> r == tools[Least(ProbeKeys(visibleOnly))]
    {
      var keys := SortedKeys(tools.Keys);
      SortedSeqSpec(tools.Keys);
      var i := FirstProbeIndex(keys, visibleOnly);
      FirstMemberIsLeast(keys, ProbeKeys(visibleOnly), i);
      r := if i < |keys| then tools[keys[i]] else null;
    }

    /** `findFirstProbe`: the dominant tool if it has a probe, else the first
        visible tool with a probe, else the first tool with a probe. */
    method FindFirstProbe() returns (r: Tool?)
      ensures dominant != null && dominant.hasProbe ==> r == dominant
      ensures !(dominant != null && dominant.hasProbe) ==>
        if ProbeKeys(true) != {} then r == tools[Least(ProbeKeys(true))]
        else if ProbeKeys(false) != {} then r == tools[Least(ProbeKeys(false))]
        else r == null
      ensures r != null ==> r.hasProbe
    {
      if dominant != null && dominant.hasProbe {
        return dominant;
      }
      r := FirstProbe(true);
      if r == null {
        r := FirstProbe(false);
      }
    }

    /** In playback the manual tool wins when its timestamp is later than
        that of every tool without the manual type, and than 0. */
    ghost predicate ManualIsNewest()
      reads this`tools, tools.Values`timestamp, manualTool`timestamp
    {
      0 < manualTool.timestamp
      && forall k :: k in tools && ManualType !in tools[k].types ==> tools[k].timestamp < manualTool.timestamp
    }

    /** The latest timestamp of the tools of `keys` without the manual type,
        starting from 0. */
    method LatestTimestamp(keys: seq<string>) returns (best: nat)
      requires forall k :: k in keys ==> k in tools
      ensures forall k :: k in keys && ManualType !in tools[k].types ==> tools[k].timestamp <= best
      ensures best == 0 || exists k :: k in keys && ManualType !in tools[k].types && tools[k].timestamp == best
    {
      best := 0;
      for i := 0 to |keys|
        invariant forall j :: 0 <= j < i && ManualType !in tools[keys[j]].types ==> tools[keys[j]].timestamp <= best
        invariant best == 0 || exists j :: 0 <= j < i && ManualType !in tools[keys[j]].types && tools[keys[j]].timestamp == best
      {
        var t := tools[keys[i]];
        if ManualType !in t.types && t.timestamp > best {
          best := t.timestamp;
        }
      }
    }

    /** A tool auto-selection considers: visible, or of the manual type. */
    ghost predicate Candidate(k: string)
      reads this`tools, tools.Values`visible
    {
      k in tools && (tools[k].visible || ManualType in tools[k].types)
    }

    /** A candidate no other candidate outranks. */
    ghost predicate IsBest(k: string)
      reads this`tools, tools.Values`visible
    {
      Candidate(k) && forall j :: Candidate(j) ==> Priority(tools[j].types) <= Priority(tools[k].types)
    }

    /** The head of the candidates sorted by `toolTypeSort`: the scan keeps
        the first of the highest priority. */
    method BestCandidate() returns (k: string)
      requires Valid()
      ensures IsBest(k)
    {
      var keys := SortedKeys(tools.Keys);
      assert Candidate(ManualUid);
      k := ManualUid;
      for i := 0 to |keys|
        invariant Candidate(k)
        invariant forall j :: 0 <= j < i && Candidate(keys[j]) ==> Priority(tools[keys[j]].types) <= Priority(tools[k].types)
      {
        var t := tools[keys[i]];
        if (t.visible || ManualType in t.types) && SortsBefore(t.types, tools[k].types) {
          k := keys[i];
        }
      }
      forall j | Candidate(j)
        ensures Priority(tools[j].types) <= Priority(tools[k].types)
      {
        assert j in keys;
      }
    }

    /** `dominantCheckSlot`: in playback a manual tool newer than every
        other makes the manual tool dominant; otherwise, with auto-selection
        on, a highest-priority candidate becomes dominant through
        `setDominantTool`, with that method's effect on the manual tool (a
        dominant tool with that uid stays, as `setDominantTool` compares uids). */
    method DominantCheck(autoSelect: bool)
      requires Valid()
      modifies this`dominant, manualTool`visible, manualTool`prMt
      ensures Valid()
      ensures playback && old(ManualIsNewest()) ==>
        ManualMadeDominant(old(dominant), old(dominant.prMt), old(manualTool.prMt), old(manualTool.visible))
      ensures !(playback && old(ManualIsNewest())) && autoSelect ==>
        var u := dominant.uid; old(IsBest(u)) && (dominant == old(dominant) || dominant == old(tools)[u])
      ensures !(playback && old(ManualIsNewest())) && autoSelect && old(dominant).uid == dominant.uid ==>
        dominant == old(dominant) && unchanged(manualTool)
      ensures !(playback && old(ManualIsNewest())) && autoSelect && old(dominant).uid != dominant.uid ==>
        manualTool.visible == (ManualType in dominant.types || (old(manualTool.visible) && ManualType !in old(dominant).types))
        && manualTool.prMt == (if ManualType in dominant.types then old(dominant.prMt) else old(manualTool.prMt))
      ensures !(playback && old(ManualIsNewest())) && !autoSelect ==>
        dominant == old(dominant) && unchanged(manualTool)
    {
      if playback {
        var keys := SortedKeys(tools.Keys);
        var best := LatestTimestamp(keys);
        assert best < manualTool.timestamp <==> ManualIsNewest() by {
          forall k | k in tools
            ensures k in keys
          {
          }
        }
        if best < manualTool.timestamp {
          MakeManualDominant();
          return;
        }
      }
      if !autoSelect {
        return;
      }
      SelectBest();
    }

    /** The auto-selection step of `dominantCheckSlot`: `setDominantTool` with
        the uid of a highest-priority candidate. */
    method SelectBest()
      requires Valid()
      modifies this`dominant, manualTool`visible, manualTool`prMt
      ensures Valid()
      ensures var u := dominant.uid; old(IsBest(u)) && (dominant == old(dominant) || dominant == old(tools)[u])
      ensures old(dominant).uid == dominant.uid ==> dominant == old(dominant) && unchanged(manualTool)
      ensures old(dominant).uid != dominant.uid ==>
        manualTool.visible == (ManualType in dominant.types || (old(manualTool.visible) && ManualType !in old(dominant).types))
        && manualTool.prMt == (if ManualType in dominant.types then old(dominant.prMt) else old(manualTool.prMt))
    {
      var k := BestCandidate();
      ghost var d0 := dominant;
      ghost var t0 := tools[k];
      SetDominantTool(k);
      assert dominant == d0 || dominant == t0;
    }

    // -------------------------------------------------------------------------
    // Playback mode
    // -------------------------------------------------------------------------

    /** The timestamps each tool but the manual one has recorded, by uid. */
    ghost function Stamps(): map<string, set<nat>>
      reads this`tools, tools.Values`history
    {
      map k | k in tools && tools[k] != manualTool :: tools[k].history.Keys
    }

    /** The timestamps of `stamps` under the keys of `ks`. */
    static ghost function RecordedOf(stamps: map<string, set<nat>>, ks: set<string>): set<nat>
    {
      set k, x | k in ks && k in stamps && x in stamps[k] :: x
    }

    /** The timestamps recorded by all tools but the manual one: the range
        playback covers. */
    ghost function Recorded(): set<nat>
      reads this`tools, tools.Values`history
    {
      RecordedOf(Stamps(), tools.Keys)
    }

    static lemma RecordedOfStep(stamps: map<string, set<nat>>, ks: set<string>, k: string)
      ensures RecordedOf(stamps, ks + {k}) == RecordedOf(stamps, ks) + if k in stamps then stamps[k] else {}
    {
    }

    static lemma RecordedOfSkip(stamps: map<string, set<nat>>, ks: set<string>, k: string)
      requires k !in stamps
      ensures RecordedOf(stamps, ks + {k}) == RecordedOf(stamps, ks)
    {
    }

    /** `m1` is `m0` with every tool but the manual one replaced by a playback
        tool wrapping it, under the same uid. */
    ghost predicate Wraps(m0: map<string, Tool>, m1: map<string, Tool>)
    {
      && m1.Keys == m0.Keys && ManualUid in m1 && m1[ManualUid] == manualTool
      && forall k :: k in m1 && k != ManualUid ==> m1[k] != manualTool && m1[k].base == m0[k]
    }

    /** `m` with every playback tool replaced by the tool it wraps. */
    ghost function Unwrapped(m: map<string, Tool>): (r: map<string, Tool>)
      ensures r.Keys == m.Keys
    {
      map k | k in m :: if m[k] != manualTool && m[k].base != null then m[k].base else m[k]
    }

    /** Wrapping every tool but the manual one keeps the tool map valid. */
    lemma WrapsKeepsValid(m0: map<string, Tool>, wrapped: map<string, Tool>)
      requires ToolsValid(m0) && manualTool.uid == ManualUid
      requires forall k :: k in wrapped <==> k in m0 && m0[k] != manualTool
      requires forall k :: k in wrapped ==> wrapped[k] != manualTool && wrapped[k].base == m0[k] && wrapped[k].AnswersTo(k)
      ensures ToolsValid(wrapped[ManualUid := manualTool]) && Wraps(m0, wrapped[ManualUid := manualTool])
    {
      forall k | k in m0 && m0[k] == manualTool
        ensures k == ManualUid
      {
        assert m0[k].AnswersTo(k);
      }
    }

    lemma UnwrappedOf(m: map<string, Tool>, r: map<string, Tool>)
      requires r.Keys == m.Keys && ManualUid in m && m[ManualUid] == manualTool && manualTool.uid == ManualUid
      requires forall k :: k in m ==>
        r[k] == if m[k] != manualTool && m[k].base != null then m[k].base else m[k]
      ensures r[manualTool.uid := manualTool] == Unwrapped(m)
    {
    }

    /** Unwrapping keeps the tool map valid. */
    lemma UnwrappedValid(m: map<string, Tool>)
      requires ToolsValid(m) && manualTool.base == null
      ensures ToolsValid(Unwrapped(m))
    {
      forall k | k in m
        ensures Unwrapped(m)[k].AnswersTo(k)
      {
        assert m[k].AnswersTo(k);
      }
    }

    /** Closing playback after opening it gives every uid back its original
        tool, the manual tool included. */
    lemma PlaybackRoundTrip(m0: map<string, Tool>, m1: map<string, Tool>)
      requires Wraps(m0, m1) && m0[ManualUid] == manualTool
      ensures Unwrapped(m1) == m0
    {
    }

    /** The range widened by the timestamps of the history of the tool under
        `k`, if it has any. */
    static method Widen(h: map<nat, Transform>, now: nat, ghost stamps: map<string, set<nat>>,
                        ghost done: set<string>, ghost k: string, first: nat, last: nat)
      returns (first': nat, last': nat)
      requires k in stamps && stamps[k] == h.Keys
      requires first == RangeStart(now, RecordedOf(stamps, done)) && last == RangeEnd(RecordedOf(stamps, done))
      ensures first' == RangeStart(now, RecordedOf(stamps, done + {k}))
      ensures last' == RangeEnd(RecordedOf(stamps, done + {k}))
    {
      ghost var u := RecordedOf(stamps, done);
      RecordedOfStep(stamps, done, k);
      first', last' := first, last;
      if h.Keys == {} {
        assert u + h.Keys == u;
        return;
      }
      var lo := LeastStamp(h.Keys);
      var hi := GreatestStamp(h.Keys);
      RangeStep(now, u, h.Keys);
      if lo < first {
        first' := lo;
      }
      if hi > last {
        last' := hi;
      }
    }

    /** The range of the wrapping loop of `setPlaybackMode`: it starts at the
        earliest timestamp any tool but the manual one has recorded, or at
        `now` when that is earlier, and ends at the latest one, or 0.
        `recorded` names the timestamps recorded at the call. */
    method PlaybackRange(now: nat, ghost recorded: set<nat>) returns (first: nat, last: nat)
      requires recorded == Recorded()
      ensures first == RangeStart(now, recorded) && last == RangeEnd(recorded)
    {
      ghost var stamps := Stamps();
      var keys := SortedKeys(tools.Keys);
      first := now;
      last := 0;
      for i := 0 to |keys|
        invariant first == RangeStart(now, RecordedOf(stamps, Visited(keys, i)))
        invariant last == RangeEnd(RecordedOf(stamps, Visited(keys, i)))
      {
        var t := tools[keys[i]];
        VisitedStep(keys, i);
        if t != manualTool {
          assert keys[i] in stamps && stamps[keys[i]] == t.history.Keys;
          first, last := Widen(t.history, now, stamps, Visited(keys, i), keys[i], first, last);
        } else {
          RecordedOfSkip(stamps, Visited(keys, i), keys[i]);
        }
      }
      VisitedAll(keys, tools.Keys);
    }

    /** The wrapping loop of `setPlaybackMode`: a playback tool for every
        tool but the manual one, in uid order, and the manual tool itself. */
    method WrapTools() returns (r: map<string, Tool>)
      requires Valid()
      ensures Wraps(tools, r) && ToolsValid(r)
      ensures forall k :: k in r && k != ManualUid ==> fresh(r[k])
    {
      var keys := SortedKeys(tools.Keys);
      var wrapped: map<string, Tool> := map[];
      for i := 0 to |keys|
        invariant forall k :: k in wrapped <==> k in Visited(keys, i) && tools[k] != manualTool
        invariant forall k :: k in wrapped ==>
          fresh(wrapped[k]) && wrapped[k].base == tools[k] && wrapped[k].AnswersTo(k)
      {
        var t := tools[keys[i]];
        VisitedStep(keys, i);
        if t != manualTool {
          var w := new Tool.Wrap(t);
          wrapped := wrapped[w.uid := w];
        }
      }
      VisitedAll(keys, tools.Keys);
      WrapsKeepsValid(tools, wrapped);
      r := wrapped[manualTool.uid := manualTool];
      assert forall k :: k in r && k != ManualUid ==> k in wrapped && r[k] == wrapped[k];
    }

    /** The wrapping part of `setPlaybackMode`: every tool but the manual one
        is replaced by a playback tool under the same uid, and the controller
        is initialized with the range from `first` to `last`. */
    method WrapForPlayback(first: nat, last: nat)
      requires Valid()
      modifies this`tools, this`playbackStart, this`playbackLength
      ensures Valid()
      ensures Wraps(old(tools), tools) && forall k :: k in tools && k != ManualUid ==> fresh(tools[k])
      ensures playbackStart == first && playbackStart + playbackLength == last
    {
      ghost var d := dominant;
      tools := WrapTools();
      assert dominant == d;
      playbackStart := first;
      playbackLength := last as int - first;
    }

    /** `setPlaybackMode` with a controller: configures first if need be, and
        wraps the tools once configured. */
    method OpenPlayback(now: nat)
      requires Valid()
      modifies this`ctl, this`tools, this`playback, this`playbackStart, this`playbackLength
      ensures Valid()
      ensures ctl == Tracking.OpenPlayback(old(ctl))
      ensures !Tracking.PlaybackOpens(old(ctl)) ==>
        tools == old(tools) && playback == old(playback)
        && playbackStart == old(playbackStart) && playbackLength == old(playbackLength)
      ensures Tracking.PlaybackOpens(old(ctl)) ==>
        playback && Wraps(old(tools), tools) && (forall k :: k in tools && k != ManualUid ==> fresh(tools[k]))
        && playbackStart == RangeStart(now, old(Recorded()))
        && playbackStart + playbackLength == RangeEnd(old(Recorded()))
    {
      ghost var recorded, d := Recorded(), dominant;
      if !Tracking.IsConfigured(ctl.state) {
        Configure();
      }
      if !ctl.worker {
        return;
      }
      if !Tracking.IsConfigured(ctl.state) {
        ctl := Tracking.Warn(ctl);
        return;
      }
      var first, last := PlaybackRange(now, recorded);
      WrapForPlayback(first, last);
      ghost var t1 := tools;
      playback := true;
      EmitInitialized();
      ctl := Tracking.Emit(ctl, Tracking.StateChangedSignal);
      assert tools == t1 && dominant == d;
    }

    /** The unwrapping loop of `closePlayBackMode`: every playback tool is
        replaced by the tool it wraps, under the same uid. */
    method UnwrapTools()
      requires Valid()
      modifies this`tools
      ensures Valid()
      ensures tools == Unwrapped(old(tools))
    {
      var original := tools;
      var keys := SortedKeys(original.Keys);
      for i := 0 to |keys|
        invariant tools.Keys == original.Keys
        invariant forall k :: k in original ==>
          tools[k] == if k in Visited(keys, i) && original[k] != manualTool && original[k].base != null
                      then original[k].base else original[k]
      {
        var t := original[keys[i]];
        VisitedStep(keys, i);
        if t != manualTool && t.base != null {
          assert t.AnswersTo(keys[i]) && t.base.AnswersTo(keys[i]);
          tools := tools[t.base.uid := t.base];
        }
      }
      VisitedAll(keys, original.Keys);
      UnwrappedOf(original, tools);
      ghost var d := dominant;
      tools := tools[manualTool.uid := manualTool];
      UnwrappedValid(original);
      assert ToolsValid(tools) && dominant == d;
    }

    /** `closePlayBackMode`, also `setPlaybackMode` without a controller. */
    method ClosePlayback()
      requires Valid()
      modifies this`ctl, this`tools, this`playback
      ensures Valid()
      ensures ctl == Tracking.ClosePlayback(old(ctl))
      ensures tools == Unwrapped(old(tools)) && !playback
    {
      UnwrapTools();
      playback := false;
      EmitInitialized();
      ctl := Tracking.Emit(ctl, Tracking.StateChangedSignal);
    }

    /** `clear`: the manual tool goes back to the identity pose. */
    method Clear()
      modifies manualTool`prMt
      ensures manualTool.prMt == Identity
    {
      manualTool.prMt := Identity;
    }
  }
}
