# CustusX tracking, view-group, data and browser bookkeeping in Dafny

This project models the sequential bookkeeping of five CustusX components and
proves properties of the model.

- **Tracking tool manager.** `ToolManagerUsingIGSTK` has a four-state lifecycle
  (NONE < CONFIGURED < INITIALIZED < TRACKING). `setState` drives it, and its
  steps are chained through one-shot continuations. The manager keeps a map of
  tools keyed by uid that always holds the manual tool. It applies a priority
  rule to choose the dominant tool. It wraps and unwraps the tool map for
  playback. It also saves and loads each tool's position history against a
  "last saved" watermark.
- **View groups.** Both variants of `ViewGroupData` are modelled: one keyed by
  data uid, one keyed by data object. Each keeps an ordered list of
  (data, `DataViewProperties`) entries. The list stays unique, drops entries
  whose flags become empty, and supports insertion sorted by priority. The
  `CameraStyleData` style record is modelled too.
- **Data manager.** `DataManagerImpl` keeps its image, mesh and landmark maps.
  Data is loaded only once. Landmark uids are generated, and the reader is
  chosen from the file suffix.
- **Browser tree repository.** `TreeRepository` holds a node list that is
  rebuilt from scratch. Its insert operations do nothing when the uid is
  already present.
- **Tree model items.** `TreeItemImpl` keeps its parent/child lists, and
  `TreeItemToolManager::create` adds one child per tracked tool.

Files and modules:

- **`common.dfy` (`Common`).** `Option` and the opaque `Transform`.
- **`text.dfy` (`Text`).** Qt/std string operations the core relies on:
  - case mapping of ASCII letters (Qt maps all of Unicode; see Left out);
  - `contains`;
  - integer parsing (`QString::toInt`, with its sign, surrounding whitespace
    and 32-bit range) and printing;
  - the lexicographic order of map keys by code point, and the ascending key
    sequence a map iterates in (`QString` keys compare UTF-16 code units
    instead; see Left out).
- **`tools.dfy` (`Tools`).**
  - tool types and `getPriority`/`toolTypeSort`;
  - the `Tool` class (a playback tool is a `Tool` with a `base`);
  - timestamps in order and the playback time range;
  - the report of unknown tools.
- **`lifecycle.dfy` (`Tracking`).** The lifecycle as pure step functions over a
  control record. The record holds:
  - the state;
  - whether a worker exists;
  - the pending continuations;
  - the configuration and logging paths;
  - the requests sent to the worker;
  - the signals emitted;
  - the number of warnings and errors the lifecycle steps report
    (`reportWarning` and `reportError` alike).
- **`toolmanager.dfy` (`ToolManagement`).** The `ToolManager` class. Its methods
  change fields the way the C++ members do, and each states its new control
  record as the matching `Tracking` step.
- **`dataview.dfy` (`DataView`).** Shared by both view groups:
  - the `DataViewProperties` flag algebra;
  - data priority;
  - the entry-list operations (find, remove, set, sorted insert).
- **`viewgroup_uid.dfy` (`ViewGroupByUid`).**
  `source/resource/view/cxViewGroupData.cpp` and `CameraStyleData`.
- **`viewgroup_data.dfy` (`ViewGroupByData`).**
  `source/resource/visualization/cxViewGroupData.cpp`.
- **`datamanager.dfy` (`DataManagement`).** `DataManagerImpl`.
- **`tree_repository.dfy` (`Browser`).** `TreeRepository`.
- **`tree_model_item.dfy` (`TreeItems`).** `TreeItemImpl` and
  `TreeItemToolManager`.

Inputs the C++ code takes from its environment become parameters:

| Environment input | Model |
|---|---|
| the tracker worker's `configured`/`initialized`/`tracking(bool)` answers | the `ok` argument of the slot methods |
| the tools and reference tool the worker offers after configuration | a map of `WorkerTool` records and a reference key |
| the configuration files on disk | a map from path to tracker count |
| the position-storage file | a sequence of read attempts, where `None` is a failed read |
| the clock | a `now: nat` argument (milliseconds since the epoch) |
| the `autoSelectDominantTool` setting | a `bool` argument |
| the patient model service | a map from uid to data, or the set of uids it knows |
| the tracking service's tool map | a set of uids |

Signals become a recorded log where their order matters: the tool manager's
`Signal`s, the view groups' `Notice`s and the data manager's `DataSignal`s.

## Model

The source lines are those of the C++ member a row models. The
`DataViewProperties` rows cite the uid-keyed file. The pointer-keyed file has
the same code at `source/resource/visualization/cxViewGroupData.cpp:125-154`.

| member | source | states |
|---|---|---|
| Tools.Priority | source/service/tracking/cxToolManagerUsingIGSTK.cpp:947-959 | A priority is at most 4. It is 2 exactly when the tool has the manual type, because the manual test comes first. |
| Tools.PriorityOrder | source/service/tracking/cxToolManagerUsingIGSTK.cpp:947-959 | Single-type tools order as probe > pointer > manual > reference > untyped. A tool that is also manual always ranks 2. |
| Tools.SortsBeforeIsStrictWeakOrder | source/service/tracking/cxToolManagerUsingIGSTK.cpp:968-971 | `toolTypeSort` is irreflexive and transitive, and its incomparability is transitive, so it is a valid `std::sort` comparator. |
| Tools.Tool.constructor | source/service/tracking/cxToolManagerUsingIGSTK.cpp:227-236 | A new tool has the given uid, types and probe. It is not wrapped, is invisible, has an empty history and answers to its own uid. |
| Tools.Tool.Wrap | source/service/tracking/cxToolManagerUsingIGSTK.cpp:163 | A playback tool wraps its base. It has the base's uid, types and probe, and answers to the base's uid. |
| Tools.SortedIntsSpec | source/service/tracking/cxToolManagerUsingIGSTK.cpp:166-171 | The timestamps of a history, in iteration order, are exactly its keys, each once and strictly increasing. |
| Tools.LeastStamp | source/service/tracking/cxToolManagerUsingIGSTK.cpp:169 | `history->begin()->first` is the least timestamp of a non-empty history. |
| Tools.GreatestStamp | source/service/tracking/cxToolManagerUsingIGSTK.cpp:170 | `history->rbegin()->first` is the greatest timestamp of a non-empty history. |
| Tools.SortedStamps | source/service/tracking/cxToolManagerUsingIGSTK.cpp:719-721 | Walking a history yields its timestamps in ascending order. |
| Tools.RangeStart | source/service/tracking/cxToolManagerUsingIGSTK.cpp:157-171 | The playback start is at most `now`. It is at most every recorded timestamp, and is either `now` or one of them. |
| Tools.RangeEnd | source/service/tracking/cxToolManagerUsingIGSTK.cpp:157-171 | The playback end bounds every recorded timestamp. Nothing is recorded exactly when the end is 0 and 0 is not a recorded timestamp. |
| Tools.RangeStep | source/service/tracking/cxToolManagerUsingIGSTK.cpp:167-171 | Folding one non-empty history into the range moves each end by `std::min`/`std::max` with that history's first/last timestamp. |
| Tools.ReportedSpec | source/service/tracking/cxToolManagerUsingIGSTK.cpp:755-756 | After `removeDuplicates` and `removeAll("")` the report holds every non-empty missing uid exactly once and nothing else. |
| Tracking.StateTestsNest | source/service/tracking/cxToolManagerUsingIGSTK.cpp:273-287 | Tracking implies initialized, and initialized implies configured. Configured means not NONE, and tracking means TRACKING. |
| Tracking.ConfigureSpec | source/service/tracking/cxToolManagerUsingIGSTK.cpp:288-334 | `configure` fails closed: an empty or missing path, or zero trackers, gives one warning and nothing else. Otherwise a worker is created with the current path and logging folder, and the state, continuations and signals are unchanged. |
| Tracking.SetStateImmediate | source/service/tracking/cxToolManagerUsingIGSTK.cpp:248-271 | `setState(current)` changes nothing. The only state change `setState` makes at once is CONFIGURED to NONE (deconfigure). Every other step waits for a worker event. |
| Tracking.SetStateUpAsksOnlyForward | source/service/tracking/cxToolManagerUsingIGSTK.cpp:248-271 | Raising the state keeps every earlier request. It only adds start-worker, initialize(true) and track(true) requests, and it never drops a pending continuation. |
| Tracking.SetStateDownAsksOnlyBackward | source/service/tracking/cxToolManagerUsingIGSTK.cpp:248-271 | Lowering the state keeps every earlier request. It only adds track(false), initialize(false) and stop requests, plus a restart only when a reconfigure was already pending. |
| Tracking.ConfiguredEventSpec | source/service/tracking/cxToolManagerUsingIGSTK.cpp:336-399 | `configured(true)` gives CONFIGURED. The initialize-after-config continuation fires at most once and disconnects itself. `configured(false)` is `deconfigure`. |
| Tracking.InitializedEventSpec | source/service/tracking/cxToolManagerUsingIGSTK.cpp:797-814 | `initialized(true)` gives INITIALIZED and consumes the start-tracking continuation. `initialized(false)` gives CONFIGURED, or NONE when a deconfigure was waiting. That continuation is consumed, and so is a reconfigure waiting behind it. |
| Tracking.TrackingEventSpec | source/service/tracking/cxToolManagerUsingIGSTK.cpp:816-833 | `tracking(true)` gives TRACKING. `tracking(false)` gives INITIALIZED and consumes the uninitialize-after-stop continuation. |
| Tracking.DeconfigureSpec | source/service/tracking/cxToolManagerUsingIGSTK.cpp:401-430 | Below INITIALIZED, deconfigure ends in NONE with `deconfigured` emitted. The worker is gone unless a reconfigure restarts it. From INITIALIZED or above it waits for uninitialize, and from TRACKING it also waits for stop-tracking. |
| Tracking.StartTrackingReachesTracking | source/service/tracking/cxToolManagerUsingIGSTK.cpp:571-587 | From NONE with a valid configuration, `startTracking` followed by the three successful worker answers reaches TRACKING with no continuation left. It asks the worker for exactly start, initialize and track. |
| Tracking.DeconfigureFromTrackingReachesNone | source/service/tracking/cxToolManagerUsingIGSTK.cpp:401-478 | From TRACKING, `deconfigure` and the two failing answers reach NONE with no worker and no continuation left. It asks for exactly stop-tracking, uninitialize and stop. |
| Tracking.OpenPlaybackSpec | source/service/tracking/cxToolManagerUsingIGSTK.cpp:124-181 | Playback opens exactly when the manager is configured and has a worker. When it is not configured, the manager tries `configure` and warns once or twice, and the state is unchanged. When it opens, the state is unchanged and `initialized` is emitted. This is the state right after `configure` returns; the `processEvents` poll is not modelled. |
| Tracking.DeconfigureKeepsPaths | source/service/tracking/cxToolManagerUsingIGSTK.cpp:401-430 | `deconfigure` extends the request, signal and warning logs and keeps both paths. Any worker it restarts uses the current path and folder. |
| Tracking.SetConfigurationFileUsesNewPath | source/service/tracking/cxToolManagerUsingIGSTK.cpp:769-781 | After the corrected `setConfigurationFile(path)` the path is `path`, and every worker restarted by the call is configured from `path`. |
| Tracking.SetLoggingFolderUsesNewFolder | source/service/tracking/cxToolManagerUsingIGSTK.cpp:783-795 | After the corrected `setLoggingFolder(folder)` every worker restarted by the call logs to `folder`. |
| Tracking.AsWrittenAgreesAwayFromConfigured | source/service/tracking/cxToolManagerUsingIGSTK.cpp:769-795 | Outside CONFIGURED the as-written and corrected setters are the same. |
| Tracking.SetConfigurationFileAsWrittenUsesOldPath | source/service/tracking/cxToolManagerUsingIGSTK.cpp:769-781 | Counterexample: from CONFIGURED, `setConfigurationFile("b")` as written restarts the worker with the old path "a". |
| Tracking.SetLoggingFolderAsWrittenUsesOldFolder | source/service/tracking/cxToolManagerUsingIGSTK.cpp:783-795 | Counterexample: from CONFIGURED, `setLoggingFolder("new")` as written restarts the worker with the old folder. |
| ToolManagement.ReadRecordsSpec | source/service/tracking/cxToolManagerUsingIGSTK.cpp:739-753 | The records read are the successful reads before the first failed read, and nothing after it. |
| ToolManagement.ToolManager.GetTool | source/service/tracking/cxToolManagerUsingIGSTK.cpp:627-638 | `getTool("active")` is the dominant tool. Any other uid gives the mapped tool, or null exactly when it is unmapped. |
| ToolManagement.ToolManager.SetDominantTool | source/service/tracking/cxToolManagerUsingIGSTK.cpp:658-696 | The current dominant's uid changes nothing. Otherwise the looked-up tool becomes dominant. Leaving a manual-type dominant hides the manual tool. Selecting a manual-type tool gives the manual tool the previous dominant's `prMt` and makes it visible. |
| ToolManagement.ToolManager.MakeManualDominant | source/service/tracking/cxToolManagerUsingIGSTK.cpp:658-696 | `setDominantTool("ManualTool")`: the manual tool becomes dominant, as `SetDominantTool` states. |
| ToolManagement.ToolManager.constructor | source/service/tracking/cxToolManagerUsingIGSTK.cpp:69-102 | `create` starts in NONE with no worker, the given path and watermark 0. The tool map is only the visible manual tool under "ManualTool" at its start pose, and the manual tool is dominant. |
| ToolManagement.ToolManager.Configure | source/service/tracking/cxToolManagerUsingIGSTK.cpp:288-334 | The control record becomes `Tracking.Configure` of the old one. |
| ToolManagement.ToolManager.Initialize | source/service/tracking/cxToolManagerUsingIGSTK.cpp:432-460 | The control record becomes `Tracking.Initialize` of the old one: configure first, with a continuation, when not configured. |
| ToolManagement.ToolManager.StartTracking | source/service/tracking/cxToolManagerUsingIGSTK.cpp:571-587 | The control record becomes `Tracking.StartTracking` of the old one: initialize first, with a continuation, when not initialized. |
| ToolManagement.ToolManager.StopTracking | source/service/tracking/cxToolManagerUsingIGSTK.cpp:589-598 | The control record becomes `Tracking.StopTracking` of the old one. |
| ToolManagement.ToolManager.Uninitialize | source/service/tracking/cxToolManagerUsingIGSTK.cpp:462-478 | The control record becomes `Tracking.Uninitialize` of the old one: stop tracking first, with a continuation, when tracking. |
| ToolManagement.ToolManager.Deconfigure | source/service/tracking/cxToolManagerUsingIGSTK.cpp:401-430 | The control record becomes `Tracking.Deconfigure` of the old one. Below INITIALIZED the manual tool becomes dominant. Otherwise the dominant tool and the manual tool are unchanged. |
| ToolManagement.ToolManager.EmitDeconfigured | source/service/tracking/cxToolManagerUsingIGSTK.cpp:423-429 | `deconfigured` is emitted and a waiting reconfigure fires once, as `Tracking.EmitDeconfigured`. |
| ToolManagement.ToolManager.EmitConfigured | source/service/tracking/cxToolManagerUsingIGSTK.cpp:392-398 | `configured` is emitted and a waiting initialize fires once. |
| ToolManagement.ToolManager.EmitInitialized | source/service/tracking/cxToolManagerUsingIGSTK.cpp:797-814 | `initialized` is emitted and a waiting start-tracking fires once. |
| ToolManagement.ToolManager.EmitTrackingStopped | source/service/tracking/cxToolManagerUsingIGSTK.cpp:816-833 | `trackingStopped` is emitted and a waiting uninitialize fires once. |
| ToolManagement.ToolManager.EmitUninitialized | source/service/tracking/cxToolManagerUsingIGSTK.cpp:797-814 | `uninitialized` is emitted, and a waiting deconfigure fires once, making the manual tool dominant. |
| ToolManagement.ToolManager.InitializedSlot | source/service/tracking/cxToolManagerUsingIGSTK.cpp:797-814 | The control record becomes `Tracking.InitializedEvent`. A failure with a deconfigure waiting makes the manual tool dominant. Otherwise dominance is unchanged. |
| ToolManagement.ToolManager.TrackingSlot | source/service/tracking/cxToolManagerUsingIGSTK.cpp:816-833 | The control record becomes `Tracking.TrackingEvent`. |
| ToolManagement.ToolManager.SetState | source/service/tracking/cxToolManagerUsingIGSTK.cpp:248-271 | The control record becomes `Tracking.SetState`. Dominance changes only on the immediate CONFIGURED-to-NONE step. |
| ToolManagement.ToolManager.SetConfigurationFile | source/service/tracking/cxToolManagerUsingIGSTK.cpp:769-781 | The control record becomes the corrected `Tracking.SetConfigurationFile`. Only a reconfigure from CONFIGURED with a new path changes dominance. |
| ToolManagement.ToolManager.SetLoggingFolder | source/service/tracking/cxToolManagerUsingIGSTK.cpp:783-795 | The control record becomes the corrected `Tracking.SetLoggingFolder`. Only a reconfigure from CONFIGURED with a new folder changes dominance. |
| ToolManagement.ToolManager.TrackerConfigured | source/service/tracking/cxToolManagerUsingIGSTK.cpp:336-399 | The control record becomes `Tracking.ConfiguredEvent`: a failure deconfigures, and a success sets CONFIGURED and emits `configured`. A failure leaves the tool map alone. A success with a worker adds exactly the worker's valid tools, each built fresh from the worker's data, and keeps every other entry. It sets the reference tool when its uid is among them, makes the manual tool dominant and moves the watermark to `now` after loading the history. |
| ToolManagement.ToolManager.AddWorkerTools | source/service/tracking/cxToolManagerUsingIGSTK.cpp:355-380 | The tool map gains exactly the valid offered tools as fresh tools built from them. Other entries are unchanged, the reference is updated only when its uid was added, and the map stays valid. |
| ToolManagement.ToolManager.BuildWorkerTools | source/service/tracking/cxToolManagerUsingIGSTK.cpp:355-380 | Loop over the offered tools in key order: the result is keyed by exactly the valid offered uids, each a fresh tool built from its offer. |
| ToolManagement.ToolManager.NamesOfSpec | source/service/tracking/cxToolManagerUsingIGSTK.cpp:744 | A uid names a tool exactly when `getTool(uid)` returns it, including "active" for the dominant tool. |
| ToolManagement.ToolManager.LoadedSpec | source/service/tracking/cxToolManagerUsingIGSTK.cpp:739-753 | After loading, a timestamp is in a tool's history exactly when it was there or a record for one of the tool's names carries it. The pose is the last such record's, or the old pose when none does. |
| ToolManagement.ToolManager.MissingSpec | source/service/tracking/cxToolManagerUsingIGSTK.cpp:749-752 | The missing list holds exactly the uids of the records that `getTool` does not find. |
| ToolManagement.ToolManager.LoadRecord | source/service/tracking/cxToolManagerUsingIGSTK.cpp:744-752 | One record goes into the history of the tool `getTool` finds, which is reported as found, or else nothing changes. |
| ToolManagement.ToolManager.LoadRecords | source/service/tracking/cxToolManagerUsingIGSTK.cpp:739-753 | The read loop stops at the first failed read. The histories are loaded with exactly the records read, and the missing uids are collected in order. |
| ToolManagement.ToolManager.LoadPositionHistory | source/service/tracking/cxToolManagerUsingIGSTK.cpp:727-767 | Every tool's history becomes its old history with the records read before the first failure inserted. Unknown uids are reported deduplicated and without "", and never abort the load. The watermark becomes `now`. |
| ToolManagement.ToolManager.RecordsOf | source/service/tracking/cxToolManagerUsingIGSTK.cpp:719-721 | Writing a sequence of timestamps writes one record per timestamp, with that timestamp's pose and the tool's uid. |
| ToolManagement.ToolManager.SavedRecordsSpec | source/service/tracking/cxToolManagerUsingIGSTK.cpp:703-725 | A record is written exactly when it is a tool's history entry at or after the watermark (`lower_bound`), under the tool's uid. |
| ToolManagement.ToolManager.HistoryRecordsSpec | source/service/tracking/cxToolManagerUsingIGSTK.cpp:711-722 | The records written for one tool are exactly its history entries at or after the watermark, under its uid. |
| ToolManagement.ToolManager.WriteHistory | source/service/tracking/cxToolManagerUsingIGSTK.cpp:719-721 | The inner loop writes one tool's entries from the watermark on, in timestamp order. |
| ToolManagement.ToolManager.WriteTools | source/service/tracking/cxToolManagerUsingIGSTK.cpp:709-722 | The outer loop writes the tools' entries one tool after the other. |
| ToolManagement.ToolManager.SavePositionHistory | source/service/tracking/cxToolManagerUsingIGSTK.cpp:703-725 | The records written are the saved records of all tools in map order from the old watermark, and the watermark becomes `now`, so the next save is incremental. |
| ToolManagement.ToolManager.LoadingSavedKeepsHistories | source/service/tracking/cxToolManagerUsingIGSTK.cpp:703-767 | Reload idempotence: loading what a save wrote back into the same tools leaves every tool's history unchanged and reports no unknown tool. |
| ToolManagement.ToolManager.LoadSavedInto | source/service/tracking/cxToolManagerUsingIGSTK.cpp:703-753 | Save then load into any history of a tool whose names reach only saved tool k: every entry of k at or after the watermark is present with its saved pose, and any other timestamp was in the history already. |
| ToolManagement.ToolManager.SavedRestoredInto | source/service/tracking/cxToolManagerUsingIGSTK.cpp:703-753 | The same round trip across managers: a tool of another valid manager (such as the tools of a later configuration) whose uid was saved gets every saved entry of that uid with its pose, whatever it held before. |
| ToolManagement.ToolManager.FirstProbeIndex | source/service/tracking/cxToolManagerUsingIGSTK.cpp:1079-1086 | The search stops at the first key whose tool has a valid probe (and is visible, on the first pass). |
| ToolManagement.ToolManager.FirstProbe | source/service/tracking/cxToolManagerUsingIGSTK.cpp:1079-1088 | One pass returns the tool of the least qualifying uid, or null when none qualifies. |
| ToolManagement.ToolManager.FindFirstProbe | source/service/tracking/cxToolManagerUsingIGSTK.cpp:1070-1089 | `findFirstProbe` returns the dominant tool (`getTool("active")`) when it has a probe. Otherwise it returns the first visible probe, then the first probe in uid order, or null. Any tool it returns has a valid probe. |
| ToolManagement.ToolManager.LatestTimestamp | source/service/tracking/cxToolManagerUsingIGSTK.cpp:903-909 | `bestTime` bounds every non-manual tool's timestamp, and is 0 or one of them. |
| ToolManagement.ToolManager.BestCandidate | source/service/tracking/cxToolManagerUsingIGSTK.cpp:919-939 | The uid chosen belongs to a visible or manual-type tool of highest priority among those candidates. |
| ToolManagement.ToolManager.DominantCheck | source/service/tracking/cxToolManagerUsingIGSTK.cpp:894-940 | In playback, a manual timestamp strictly newer than every other tool's makes the manual tool dominant. Otherwise, with auto-select on, the dominant tool becomes a highest-priority candidate, with `setDominantTool`'s effect on the manual tool's visibility and `prMt`, and the manual tool is untouched when the dominant uid does not change. With it off, nothing changes. |
| ToolManagement.ToolManager.SelectBest | source/service/tracking/cxToolManagerUsingIGSTK.cpp:916-939 | The auto-select step: a highest-priority candidate becomes dominant. The manual tool becomes visible exactly when that tool is of manual type, stays as it was when neither is, and takes the previous dominant's `prMt` in the first case. |
| ToolManagement.ToolManager.UnwrappedValid | source/service/tracking/cxToolManagerUsingIGSTK.cpp:186-198 | Unwrapping a valid tool map gives a valid tool map. |
| ToolManagement.ToolManager.PlaybackRoundTrip | source/service/tracking/cxToolManagerUsingIGSTK.cpp:154-198 | Round trip: unwrapping a wrapped tool map gives back the original map. |
| ToolManagement.ToolManager.WrapsKeepsValid | source/service/tracking/cxToolManagerUsingIGSTK.cpp:154-173 | Wrapping every non-manual tool, with the manual tool put back under its uid, gives a valid map that `Wraps` the original. |
| ToolManagement.ToolManager.Widen | source/service/tracking/cxToolManagerUsingIGSTK.cpp:166-171 | One loop step: the range after folding in one non-empty history is the range of the tools seen so far plus that tool. |
| ToolManagement.ToolManager.PlaybackRange | source/service/tracking/cxToolManagerUsingIGSTK.cpp:157-172 | The range starts at the earlier of `now` and the earliest recorded timestamp, and ends at the latest recorded timestamp, or 0 when nothing is recorded. |
| ToolManagement.ToolManager.WrapTools | source/service/tracking/cxToolManagerUsingIGSTK.cpp:154-173 | Every non-manual tool is replaced by a fresh playback tool over it under the same uid. The manual tool is never wrapped and stays mapped under its uid. |
| ToolManagement.ToolManager.WrapForPlayback | source/service/tracking/cxToolManagerUsingIGSTK.cpp:154-175 | The tool map is wrapped and the controller gets the start and the length of the range. |
| ToolManagement.ToolManager.OpenPlayback | source/service/tracking/cxToolManagerUsingIGSTK.cpp:124-181 | Unless configured with a worker, only the lifecycle changes. Otherwise the map is wrapped, the range spans the recorded timestamps seeded with (`now`, 0), playback is on and `initialized` is emitted. Configuredness is read right after `configure` returns; the `processEvents` poll is not modelled. |
| ToolManagement.ToolManager.UnwrapTools | source/service/tracking/cxToolManagerUsingIGSTK.cpp:188-198 | Each playback tool's base is mapped back under the base's uid, and the manual tool stays mapped. |
| ToolManagement.ToolManager.ClosePlayback | source/service/tracking/cxToolManagerUsingIGSTK.cpp:186-204 | The tool map is unwrapped, playback is off, and `initialized` and `stateChanged` are emitted. |
| ToolManagement.ToolManager.Clear | source/service/tracking/cxToolManagerUsingIGSTK.cpp:1010-1013 | `clear` resets the manual tool's `prMt` to identity. |
| DataView.FlagsDetermine | source/resource/view/cxViewGroupData.cpp:229-258 | Properties are determined by their set of flags. |
| DataView.CreateDefault | source/resource/view/cxViewGroupData.cpp:159-166 | The default properties are volume-3D and slice-2D. |
| DataView.CreateFull | source/resource/view/cxViewGroupData.cpp:167-174 | The full properties have all three flags. |
| DataView.CreateVolume3D | source/resource/view/cxViewGroupData.cpp:176-183 | Only volume-3D. |
| DataView.CreateSlice3D | source/resource/view/cxViewGroupData.cpp:185-192 | Only slice-3D. |
| DataView.CreateSlice2D | source/resource/view/cxViewGroupData.cpp:194-201 | Only slice-2D. |
| DataView.Create3D | source/resource/view/cxViewGroupData.cpp:203-210 | Volume-3D and slice-3D. |
| DataView.Empty | source/resource/view/cxViewGroupData.cpp:229-232 | `empty` holds exactly when no flag is set. |
| DataView.AddFlagsIn | source/resource/view/cxViewGroupData.cpp:234-241 | `addFlagsIn` is flag-wise OR: the union of the flag sets. |
| DataView.RemoveFlagsIn | source/resource/view/cxViewGroupData.cpp:243-250 | `removeFlagsIn` is flag-wise AND-NOT: the difference of the flag sets. |
| DataView.ContainsAnyFlagsIn | source/resource/view/cxViewGroupData.cpp:252-258 | `containsAnyFlagsIn` holds exactly when the flag sets overlap. |
| DataView.AddDefaultNotEmpty | source/resource/view/cxViewGroupData.cpp:361-366 | After `addData` the flags are never empty and always overlap the default. |
| DataView.RemoveThenAdd | source/resource/view/cxViewGroupData.cpp:234-250 | Removing then adding a flag set equals adding it, and removing leaves no overlap with it. |
| DataView.PriorityTable | source/resource/view/cxViewGroupData.cpp:266-306 | Each priority value holds exactly when: metric 7; mesh 6; US B-mode image 4; other US image 5; MR 2; CT 1; other image 0; any other data 3. Modality and image type are compared upper-cased by substring. |
| DataView.DataTypeSortStrictWeakOrder | source/resource/view/cxViewGroupData.cpp:266-269 | `dataTypeSort` is a strict weak ordering. |
| DataView.ImagesBelowGeometry | source/resource/view/cxViewGroupData.cpp:266-306 | Every non-ultrasound image sorts before every non-image. |
| DataView.IndexOf | source/resource/view/cxViewGroupData.cpp:420-432 | `std::find_if` stops at the first entry with the key. |
| DataView.PropertiesOf | source/resource/view/cxViewGroupData.cpp:389-394 | `getProperties` is no flags for an absent key, and otherwise the properties of an entry with that key. |
| DataView.PropertiesOfUnique | source/resource/view/cxViewGroupData.cpp:389-394 | In a list with unique keys `getProperties` returns that entry's properties. |
| DataView.RemovedSpec | source/resource/view/cxViewGroupData.cpp:425-432 | Erasing a key removes exactly that key and one entry, keeps the list unique and non-empty-flagged, changes nothing for other keys, and is the identity for an absent key. |
| DataView.RemovedShape | source/resource/view/cxViewGroupData.cpp:425-432 | The erase keeps the entries before the found one and shifts those after it down by one. |
| DataView.WithPropertiesSpec | source/resource/view/cxViewGroupData.cpp:396-418 | `setProperties` leaves the key with exactly the given flags, present exactly when they are not empty. Other keys and their positions are unchanged, and keys stay unique. |
| DataView.UpdatedInPlace | source/resource/view/cxViewGroupData.cpp:412-415 | Updating a present key in place keeps the key set and the other keys' properties. |
| DataView.Appended | source/resource/view/cxViewGroupData.cpp:407-411 | Appending an absent key adds just that key. |
| DataView.InsertedAt | source/resource/view/cxViewGroupData.cpp:368-387 | `vector::insert` at a position keeps the entries before it and shifts the rest. |
| DataView.InsertedAtOk | source/resource/view/cxViewGroupData.cpp:368-387 | Inserting an absent key with non-empty flags keeps the list well formed and adds just that key. |
| DataView.InsertPos | source/resource/view/cxViewGroupData.cpp:375-384 | The insertion point is right after the last entry of priority at most the new one, or the front. |
| DataView.InsertPosSorted | source/resource/view/cxViewGroupData.cpp:368-387 | Inserting there keeps a priority-sorted list sorted. |
| DataView.Changed | source/resource/view/cxViewGroupData.cpp:350-352 | One `dataViewPropertiesChanged` per uid, in order. |
| ViewGroupByUid.StyleOf | source/resource/view/cxViewGroupData.cpp:93-103 | `getStyle` returns a style whose fields match, or `cstCOUNT` exactly when no style matches. |
| ViewGroupByUid.StyleRoundTrip | source/resource/view/cxViewGroupData.cpp:64-103 | Round trip: `CameraStyleData(s).getStyle() == s` for every style except `cstCOUNT`. |
| ViewGroupByUid.StyleCountReadsAsDefault | source/resource/view/cxViewGroupData.cpp:69-103 | `cstCOUNT` sets no field, so it reads back as the default style. |
| ViewGroupByUid.CameraStyleData.constructor | source/resource/view/cxViewGroupData.cpp:59-62 | A new style record is cleared. |
| ViewGroupByUid.CameraStyleData.FromStyle | source/resource/view/cxViewGroupData.cpp:64-67 | A record built from a style has that style's fields. |
| ViewGroupByUid.CameraStyleData.Clear | source/resource/view/cxViewGroupData.cpp:105-115 | `clear` resets every field to false, 0 or "". |
| ViewGroupByUid.CameraStyleData.SetCameraStyle | source/resource/view/cxViewGroupData.cpp:69-91 | The fields become exactly those of the style. |
| ViewGroupByUid.CameraStyleData.GetStyle | source/resource/view/cxViewGroupData.cpp:93-103 | The loop over the styles returns the first match, or `cstCOUNT`. |
| ViewGroupByUid.Ranks | source/resource/view/cxViewGroupData.cpp:375-384 | The priorities of the list's data, in list order. |
| ViewGroupByUid.SortedInsertion | source/resource/view/cxViewGroupData.cpp:368-387 | Sorted insertion of a new uid keeps the list well formed and keeps a sorted list sorted. |
| ViewGroupByUid.KeepKnownKeys | source/resource/view/cxViewGroupData.cpp:333-354 | After the purge a uid is present exactly when it was present and the patient model knows it. |
| ViewGroupByUid.Dropped | source/resource/view/cxViewGroupData.cpp:333-354 | Every purged uid is unknown to the patient model. |
| ViewGroupByUid.PurgeStep | source/resource/view/cxViewGroupData.cpp:336-348 | One iteration either keeps the current entry and advances, or erases it and records its uid. |
| ViewGroupByUid.ViewGroupData.constructor | source/resource/view/cxViewGroupData.cpp:312-330 | A new view group has no data, video source "active" and no landmarks or picker shown. |
| ViewGroupByUid.ViewGroupData.Contains | source/resource/view/cxViewGroupData.cpp:420-423 | `contains` holds exactly when some entry has the uid. |
| ViewGroupByUid.ViewGroupData.RemoveData | source/resource/view/cxViewGroupData.cpp:425-432 | Returns true exactly when the uid was present. It then erases exactly that entry and emits one change; otherwise nothing changes. |
| ViewGroupByUid.ViewGroupData.SetProperties | source/resource/view/cxViewGroupData.cpp:396-418 | An empty uid changes nothing. Empty flags remove the uid. Other flags append the uid or update it in place. A change is emitted unless empty flags were set on an absent uid. |
| ViewGroupByUid.ViewGroupData.AddData | source/resource/view/cxViewGroupData.cpp:361-366 | An empty uid changes nothing. Any other uid ends up present, with the default flags ORed into its old ones, and one change is emitted. Every other uid is unchanged. |
| ViewGroupByUid.ViewGroupData.AddDataSorted | source/resource/view/cxViewGroupData.cpp:368-387 | A present uid changes nothing. Otherwise the uid is inserted with the default flags after the last entry of priority at most its own (or at the front), so a priority-sorted list stays sorted. |
| ViewGroupByUid.ViewGroupData.InsertIndex | source/resource/view/cxViewGroupData.cpp:375-384 | The backward scan finds the insertion point. |
| ViewGroupByUid.ViewGroupData.ClearData | source/resource/view/cxViewGroupData.cpp:434-442 | The list is emptied front first, with one change per removed uid in list order. The video source becomes "active". |
| ViewGroupByUid.ViewGroupData.Purge | source/resource/view/cxViewGroupData.cpp:333-354 | Exactly the entries the patient model no longer knows are removed, the rest keep their order, and the delayed changes are emitted after the loop. |
| ViewGroupByUid.ViewGroupData.EraseUnknown | source/resource/view/cxViewGroupData.cpp:336-348 | The erase loop leaves the known entries in order and lists the purged uids in order; nothing else changes and no signal is emitted yet. |
| ViewGroupByUid.ViewGroupData.PurgeList | source/resource/view/cxViewGroupData.cpp:336-348 | Erasing each unknown entry where it stands leaves exactly the known entries, in order, still free of duplicates, and reports the erased uids in list order. |
| ViewGroupByUid.ViewGroupData.RemoveFront | source/resource/view/cxViewGroupData.cpp:434-442 | One step of the clearing loop drops exactly the front entry and announces its uid. |
| ViewGroupByUid.ViewGroupData.SetVideoSource | source/resource/view/cxViewGroupData.cpp:456-462 | The current value changes nothing. A new value is set and announced. |
| ViewGroupByUid.ViewGroupData.SetRegistrationMode | source/resource/view/cxViewGroupData.cpp:637-655 | Landmarks show exactly for image- or patient-registered. The picker probe shows exactly for image-registered. |
| ViewGroupByData.OfTypeMembers | source/resource/visualization/cxViewGroupData.cpp:350-366 | `getDataOfType` returns exactly the entries of the requested type whose flags overlap the required ones. |
| ViewGroupByData.Ranks | source/resource/visualization/cxViewGroupData.cpp:262-269 | The priorities of the list's data, in list order. |
| ViewGroupByData.SortedInsertion | source/resource/visualization/cxViewGroupData.cpp:252-273 | Sorted insertion keeps the list well formed and keeps a sorted list sorted. |
| ViewGroupByData.KeepLiveKeys | source/resource/visualization/cxViewGroupData.cpp:229-238 | Afterwards an object is present exactly when it was present and its uid is still known. |
| ViewGroupByData.DroppedUids | source/resource/visualization/cxViewGroupData.cpp:229-238 | Every dropped uid is unknown. |
| ViewGroupByData.RefreshKeep | source/resource/visualization/cxViewGroupData.cpp:231-237 | An iteration at a still-known entry keeps it and moves past it, with no signal. |
| ViewGroupByData.RefreshDrop | source/resource/visualization/cxViewGroupData.cpp:231-237 | An iteration at an unknown entry erases it where it stands and announces exactly its uid. |
| ViewGroupByData.ParseElementSpec | source/resource/visualization/cxViewGroupData.cpp:425-440 | An element with an unknown uid is skipped. Otherwise the data ends up with exactly the parsed flags, present exactly when they are not empty, and other data is unchanged. |
| ViewGroupByData.ParseAllSkipsUnknown | source/resource/visualization/cxViewGroupData.cpp:425-440 | Elements whose uids the patient model does not know leave the list unchanged. |
| ViewGroupByData.UidsOf | source/resource/visualization/cxViewGroupData.cpp:322-330 | The uids of the list's data, in list order. |
| ViewGroupByData.ViewGroupData.constructor | source/resource/visualization/cxViewGroupData.cpp:208-227 | A new view group has no data and video source "active". |
| ViewGroupByData.ViewGroupData.Contains | source/resource/visualization/cxViewGroupData.cpp:306-309 | Holds exactly when the object is not null and some entry has it. |
| ViewGroupByData.ViewGroupData.RemoveData | source/resource/visualization/cxViewGroupData.cpp:311-320 | Null or absent data returns false and changes nothing. Otherwise exactly that entry is erased and one change is emitted. |
| ViewGroupByData.ViewGroupData.SetProperties | source/resource/visualization/cxViewGroupData.cpp:282-304 | Null is ignored. Empty flags remove the entry. Other flags append or update in place. |
| ViewGroupByData.ViewGroupData.AddData | source/resource/visualization/cxViewGroupData.cpp:245-250 | The default flags are ORed into the object's properties. Every other object is unchanged. |
| ViewGroupByData.ViewGroupData.InsertIndex | source/resource/visualization/cxViewGroupData.cpp:262-269 | The backward scan finds the insertion point. |
| ViewGroupByData.ViewGroupData.AddDataSorted | source/resource/visualization/cxViewGroupData.cpp:252-273 | Null or present data changes nothing. Otherwise it is inserted after the last entry of priority at most its own, so a sorted list stays sorted. |
| ViewGroupByData.ViewGroupData.EraseEntry | source/resource/visualization/cxViewGroupData.cpp:311-320 | Erasing the i-th entry is `removeData` of its object. |
| ViewGroupByData.ViewGroupData.DataAddedOrRemovedInManager | source/resource/visualization/cxViewGroupData.cpp:229-238 | Exactly the entries whose uid the patient model no longer knows are removed, the rest keep their order, and one change is emitted per removal. |
| ViewGroupByData.ViewGroupData.RefreshList | source/resource/visualization/cxViewGroupData.cpp:229-238 | The refresh loop leaves exactly the entries whose uid is known, in order and free of duplicates, and appends one change per erased entry in list order. |
| ViewGroupByData.ViewGroupData.RefreshOne | source/resource/visualization/cxViewGroupData.cpp:231-237 | One iteration keeps the loop's bookkeeping true and brings the loop closer to its end. |
| ViewGroupByData.ViewGroupData.RemoveFront | source/resource/visualization/cxViewGroupData.cpp:322-330 | One step of the clearing loop drops exactly the front entry and announces its uid. |
| ViewGroupByData.ViewGroupData.ClearData | source/resource/visualization/cxViewGroupData.cpp:322-330 | The list is emptied front first with one change per removed object, and the video source becomes "active". |
| ViewGroupByData.ViewGroupData.SetVideoSource | source/resource/visualization/cxViewGroupData.cpp:332-338 | The current value changes nothing. A new value is set and announced. |
| ViewGroupByData.ViewGroupData.GetDataOfType | source/resource/visualization/cxViewGroupData.cpp:350-366 | The loop returns, in list order, the entries of the type whose flags overlap. |
| ViewGroupByData.ViewGroupData.ParseXml | source/resource/visualization/cxViewGroupData.cpp:418-443 | Each data element is applied in order as add-then-set, and elements with unknown uids are skipped. The notices raised are `ParseNotices`: two property changes per known element, in element order. |
| ViewGroupByData.ViewGroupData.ParseOne | source/resource/visualization/cxViewGroupData.cpp:428-440 | One element: an unknown uid changes nothing; a known data gets the stored flags as `ParseElement` says, with one notice from `addData` and one from `setProperties`. |
| ViewGroupByData.ParseNoticesSpec | source/resource/visualization/cxViewGroupData.cpp:424-440 | At most two notices per element. Each is a property change for the data of a known element, and every known element's data is announced. |
| ViewGroupByData.ViewGroupData.SetRegistrationMode | source/resource/visualization/cxViewGroupData.cpp:446-465 | Landmarks show exactly for image- or patient-registered. The picker probe shows exactly for image-registered. |
| DataManagement.ReaderTypeTable | Code/Data/sscDataManagerImpl.cpp:612-627 | "mhd"/"mha" give METAIMAGE, "stl" STL, "vtk" POLYDATA, and anything else `rtCOUNT`, ignoring case. Every type found has a reader. |
| DataManagement.ReaderTypeIgnoresCase | Code/Data/sscDataManagerImpl.cpp:612-627 | Upper-casing a suffix does not change the reader type. |
| DataManagement.ReadFile | Code/Data/sscDataManagerImpl.cpp:165-172 | The METAIMAGE reader yields a new image with the uid. The mesh readers yield a new mesh with the uid. |
| DataManagement.NamedLandmarkAt | Code/Data/sscDataManagerImpl.cpp:234-243 | Uid i (1-based) carries the i-th name. |
| DataManagement.NamedLandmarksSpec | Code/Data/sscDataManagerImpl.cpp:234-243 | `setLandmarkNames` gives exactly n landmarks with uids "1".."n", uid i carrying `names[i-1]`, and no other key. Each uid reads back as its number for up to 2147483647 names. |
| DataManagement.AddLandmarkAsWrittenOverwrites | Code/Data/sscDataManagerImpl.cpp:245-258 | Counterexample: after `setLandmarkNames(["a"])`, `addLandmark` as written returns "1", which is already a key. |
| DataManagement.NextLandmarkUidFresh | Code/Data/sscDataManagerImpl.cpp:245-258 | The corrected uid is never an existing key while the largest uid read as an `int` is below 2147483647. |
| DataManagement.NextLandmarkUidAfterNames | Code/Data/sscDataManagerImpl.cpp:234-258 | After `setLandmarkNames` of n names the corrected uid is n+1, for n below 2147483647. |
| DataManagement.DataManager.constructor | Code/Data/sscDataManagerImpl.cpp:165-175 | A new data manager is empty, with no active image, centre at the origin and the laboratory domain. |
| DataManagement.DataManager.Clear | Code/Data/sscDataManagerImpl.cpp:181-196 | `clear` empties the images, meshes and landmarks, resets the active image and the centre, keeps the medical domain, and emits its five signals in order. |
| DataManagement.DataManager.SetCenter | Code/Data/sscDataManagerImpl.cpp:202-206 | The centre is set and announced. |
| DataManagement.DataManager.SetActiveImage | Code/Data/sscDataManagerImpl.cpp:211-232 | The current image changes nothing. A new one is set and its uid, or "", is announced. |
| DataManagement.DataManager.SetMedicalDomain | Code/Data/sscDataManagerImpl.cpp:649-655 | The current domain changes nothing. A new one is set and announced. |
| DataManagement.DataManager.SetLandmarkNames | Code/Data/sscDataManagerImpl.cpp:234-243 | The loop replaces all landmarks with the named ones. |
| DataManagement.DataManager.MaxLandmarkUid | Code/Data/sscDataManagerImpl.cpp:247-253 | The loop finds the greatest parsed key, or 0. |
| DataManagement.DataManager.AddLandmark | Code/Data/sscDataManagerImpl.cpp:245-258 | Corrected `addLandmark`: the returned uid is one more than the largest uid read as an `int`, it is new while that maximum is below 2147483647, it gets a fresh landmark, and every other landmark is kept. |
| DataManagement.DataManager.SetLandmarkName | Code/Data/sscDataManagerImpl.cpp:260-264 | Renames the landmark, creating a default one for an unknown uid (`operator[]`). |
| DataManagement.DataManager.SetLandmarkActive | Code/Data/sscDataManagerImpl.cpp:271-275 | Sets the active flag, creating a default landmark for an unknown uid. |
| DataManagement.DataManager.LoadImageObject | Code/Data/sscDataManagerImpl.cpp:298-306 | Null is ignored. Otherwise the image is stored under its uid and `dataLoaded` is emitted. |
| DataManagement.DataManager.LoadMeshObject | Code/Data/sscDataManagerImpl.cpp:308-317 | Null is ignored. Otherwise the mesh is stored under its uid and `dataLoaded` is emitted. |
| DataManagement.DataManager.LoadData | Code/Data/sscDataManagerImpl.cpp:319-329 | An image goes to the images and a mesh to the meshes. Anything else, or null, changes nothing. |
| DataManagement.DataManager.LoadImage | Code/Data/sscDataManagerImpl.cpp:277-296 | A stored uid returns the stored image without reading. `rtAUTO` returns null. Otherwise the file is read and stored by kind, and only an image is returned. |
| DataManagement.DataManager.LoadMesh | Code/Data/sscDataManagerImpl.cpp:351-368 | A stored uid returns the stored mesh without reading. Otherwise the file is read and stored by kind, and only a mesh is returned. |
| DataManagement.DataManager.GetImage | Code/Data/sscDataManagerImpl.cpp:370-375 | The stored image, or null exactly for an unknown uid. |
| DataManagement.DataManager.GetMesh | Code/Data/sscDataManagerImpl.cpp:406-411 | The stored mesh, or null exactly for an unknown uid. |
| DataManagement.DataManager.GetImageUids | Code/Data/sscDataManagerImpl.cpp:398-404 | Exactly the image uids, each once, in ascending order. |
| DataManagement.DataManager.GetImageNames | Code/Data/sscDataManagerImpl.cpp:390-396 | The images' names in uid order. |
| DataManagement.DataManager.GetImageUidsAndNames | Code/Data/sscDataManagerImpl.cpp:382-388 | Maps every image uid to its image's name. |
| DataManagement.DataManager.GetMeshUidsWithNames | Code/Data/sscDataManagerImpl.cpp:418-424 | Maps every mesh uid to its mesh's name. |
| DataManagement.DataManager.GetMeshUids | Code/Data/sscDataManagerImpl.cpp:425-428 | Always empty. |
| DataManagement.DataManager.GetMeshNames | Code/Data/sscDataManagerImpl.cpp:429-432 | Always empty. |
| Browser.FindNodeSpec | source/gui/browser/cxTreeRepository.cpp:135-143 | `getNode` finds a node exactly when one has the uid, and then it is the first such node. |
| Browser.GrowsKeepsUids | source/gui/browser/cxTreeRepository.cpp:243-247 | Appending never loses a uid. |
| Browser.WithGroupSpec | source/gui/browser/cxTreeRepository.cpp:212-222 | After `insertGroupNode` "group_g" is present, and a second insert does nothing. |
| Browser.WithToolSpec | source/gui/browser/cxTreeRepository.cpp:224-229 | After `insertToolNode` the uid is present, and a second insert does nothing. |
| Browser.WithDataSpec | source/gui/browser/cxTreeRepository.cpp:231-241 | `insertDataNode` appends four nodes for a new uid, and a second insert does nothing. |
| Browser.WithSpaceSpec | source/gui/browser/cxTreeRepository.cpp:249-254 | After `insertSpaceNode` the space string or its reference object is present, and a second insert does nothing. |
| Browser.InsertsKeepUnique | source/gui/browser/cxTreeRepository.cpp:212-254 | The checked inserts keep the checked uids unique. |
| Browser.SkeletonShape | source/gui/browser/cxTreeRepository.cpp:172-183 | The rebuild starts with the top node, the tool, data and space groups, and the reference space, in that order. |
| Browser.SkeletonUnique | source/gui/browser/cxTreeRepository.cpp:172-183 | The start of the rebuild has unique uids. |
| Browser.FixedNodesUnique | source/gui/browser/cxTreeRepository.cpp:172-183 | The invisible top, the three groups and the reference space have pairwise distinct uids. |
| Browser.WithDataNodesSpec | source/gui/browser/cxTreeRepository.cpp:185-190 | After the data loop every data uid is present, and uniqueness is kept. |
| Browser.WithParentSpacesSpec | source/gui/browser/cxTreeRepository.cpp:192-200 | The parent-space loop only appends and keeps uniqueness. |
| Browser.WithToolNodesSpec | source/gui/browser/cxTreeRepository.cpp:205-209 | After the tool loop every tool uid is present, and uniqueness is kept. |
| Browser.RebuiltSpec | source/gui/browser/cxTreeRepository.cpp:172-210 | A rebuild starts with the five skeleton nodes, contains every data and tool uid, and has unique checked uids. |
| Browser.TreeRepository.constructor | source/gui/browser/cxTreeRepository.cpp:61-83 | `create` yields exactly the top node, marked invalid. |
| Browser.TreeRepository.GetNode | source/gui/browser/cxTreeRepository.cpp:135-143 | The linear search returns the first node with the uid, or nothing. |
| Browser.TreeRepository.GetTopNode | source/gui/browser/cxTreeRepository.cpp:145-153 | Finds the node with uid "node::invisible_top". |
| Browser.TreeRepository.InsertTopNode | source/gui/browser/cxTreeRepository.cpp:165-170 | Appends the top node. |
| Browser.TreeRepository.AppendNode | source/gui/browser/cxTreeRepository.cpp:243-247 | Appends the node. |
| Browser.TreeRepository.GetNodeForGroup | source/gui/browser/cxTreeRepository.cpp:219-222 | Looks up "group_" followed by the group name. |
| Browser.TreeRepository.InsertGroupNode | source/gui/browser/cxTreeRepository.cpp:212-217 | Appends a group node unless its uid is present. |
| Browser.TreeRepository.InsertToolNode | source/gui/browser/cxTreeRepository.cpp:224-229 | Appends a tool node unless its uid is present. |
| Browser.TreeRepository.InsertDataNode | source/gui/browser/cxTreeRepository.cpp:231-241 | Appends the data node and three show nodes unless the uid is present. |
| Browser.TreeRepository.InsertSpaceNode | source/gui/browser/cxTreeRepository.cpp:249-254 | Appends a space node unless its string or reference object is present. |
| Browser.TreeRepository.RebuildSkeleton | source/gui/browser/cxTreeRepository.cpp:174-180 | Clearing, the top node, the groups and the reference space give the skeleton. |
| Browser.TreeRepository.InsertDataNodes | source/gui/browser/cxTreeRepository.cpp:184-188 | The data loop in map order. |
| Browser.TreeRepository.InsertParentSpaces | source/gui/browser/cxTreeRepository.cpp:190-198 | Non-empty parent spaces that are not data uids are inserted. |
| Browser.TreeRepository.InsertToolNodes | source/gui/browser/cxTreeRepository.cpp:203-207 | The tool loop in map order. |
| Browser.TreeRepository.Rebuild | source/gui/browser/cxTreeRepository.cpp:172-210 | The node list becomes the rebuild of the given data and tools. |
| Browser.TreeRepository.Update | source/gui/browser/cxTreeRepository.cpp:92-98 | Rebuilds exactly when invalid, and always leaves the flag set. |
| Browser.TreeRepository.Invalidate | source/gui/browser/cxTreeRepository.cpp:100-105 | Sets the flag and announces it. |
| TreeItems.TreeItem.constructor | source/gui/infoWidgets/cxTreeModelItem.cpp:36-44 | A child takes its model from a live parent and starts with no children. |
| TreeItems.TreeItem.CreateRoot | source/gui/infoWidgets/cxTreeModelItem.cpp:21-26 | The root has no parent and the given model. |
| TreeItems.TreeItem.Create | source/gui/infoWidgets/cxTreeModelItem.cpp:28-34 | The new item takes the given fields and the parent's model, and is appended to a live parent's children. |
| TreeItems.TreeItem.AddChild | source/gui/infoWidgets/cxTreeModelItem.cpp:46-50 | Appends the child and returns it. |
| TreeItems.TreeItem.GetChild | source/gui/infoWidgets/cxTreeModelItem.cpp:51-54 | The row-th appended child. |
| TreeItems.TreeItem.GetChildCount | source/gui/infoWidgets/cxTreeModelItem.cpp:60 | The number of appended children. |
| TreeItems.TreeItem.GetColumnCount | source/gui/infoWidgets/cxTreeModelItem.cpp:61 | Always 3. |
| TreeItems.TreeItem.CreateToolManager | source/gui/infoWidgets/cxTreeModelItem.cpp:131-144 | The item is appended to a live parent and gets exactly one tool child per tool of the map, in map order. |
| Text.SortedSeqSpec | Code/Data/sscDataManagerImpl.cpp:398-404 | A map's keys in iteration order are exactly its keys, each once, strictly ascending. |
| Text.SortedKeys | Code/Data/sscDataManagerImpl.cpp:398-404 | Computes that key order. |
| Text.ParseNatToString | Code/Data/sscDataManagerImpl.cpp:239-253 | `toInt` of `string_cast(n)` is n when n fits an `int` (n <= 2147483647), and 0 (failure) beyond. |
| Text.ParseInt | Code/Data/sscDataManagerImpl.cpp:251 | `QString::toInt` always yields a value in the 32-bit `int` range. |
| Text.ParseIntSpec | Code/Data/sscDataManagerImpl.cpp:251 | A non-zero result is the value of the whitespace-trimmed, optionally signed decimal numeral, and every such numeral in the `int` range is read as its value. |
| Text.ParsePlusNatToString | Code/Data/sscDataManagerImpl.cpp:251 | A leading '+' is accepted: `toInt("+" + string_cast(n))` is n for n in range. |
| Text.ParseIntIgnoresSpace | Code/Data/sscDataManagerImpl.cpp:251 | Whitespace around the text does not change the value read. |
| Text.NatToStringInjective | Code/Data/sscDataManagerImpl.cpp:239 | Distinct numbers give distinct uids. |

## Left out

- Browser.NodeUid and Browser.SpaceString: the uid forms of the space nodes
  (`reference/…`, `data/…`, `patient reference/…`) and of the show nodes
  (`show_<kind>_<uid>`) are assumed. `SpaceTreeNode::getUid` is only declared
  in `source/gui/browser/cxSpaceTreeNode.h:59`; its body, the show-node classes
  and `CoordinateSystem::toString` are not part of this model. The top and group
  uids come from `getTopNode` and `getNodeForGroup`. The uniqueness lemmas
  (Browser.SkeletonUnique, Browser.FixedNodesUnique, Browser.InsertsKeepUnique,
  Browser.RebuiltSpec) hold for these assumed forms.
- Floating point, transforms and poses. A `Transform` is an opaque value and
  timestamps are natural numbers (milliseconds). The manual tool's start pose is
  a constant, and the `similar()` tooltip-offset check and `setTooltipOffset`
  are not modelled.
- The tracker worker thread. Starting, quitting, `wait(2000)` and terminating
  it are not modelled; the worker's answers are inputs. The `processEvents`
  polling loop in `setPlaybackMode` (lines 139-146) is not modelled either: the
  model takes the state as it is after `configure` returns.
- Device symlinks (`createSymlink`/`cleanupSymlink`), `runDummyTool`,
  `resetTrackingPositionFilters`, `getSessionHistory` and
  `globalConfigurationFileChangedSlot` (a settings hook).
- Log messages and the texts of `reportWarning`/`reportError`. The warnings
  and errors of the lifecycle steps (`configure`, `initialize`, the state
  changes, opening playback) are counted, not worded, in one counter.
- ToolManagement.ToolManager.TrackerConfigured, Tracking.ConfiguredEvent and
  ToolManagement.ToolManager.LoadPositionHistory leave the warning count
  alone. The per-tool warning of `trackerConfiguredSlot` for a tool that
  could not be created (source/service/tracking/cxToolManagerUsingIGSTK.cpp:369-370)
  is not counted: an invalid tool is dropped (`ValidKeys`) without a warning.
  The missing-tools warning of `loadPositionHistory` (lines 758-764) is not
  counted either; what it reports is kept as `unknownTools`.
- Signal/slot connections as such. A continuation is a set member, because Qt
  `disconnect` removes every copy of a connection. Re-entrant signal delivery
  is not modelled.
- XML. This covers `addXml`/`parseXml` of the tool manager, the data manager,
  `DataViewProperties` and `CameraStyleData`. Of the pointer-keyed
  `parseXml`, only the skip rule and the add-then-set of each element are
  modelled; the elements arrive already parsed.
- The readers (`MetaImageReader`, `PolyDataMeshReader`, `StlMeshReader`) and
  `saveImage`. `ReadFile` only says which kind of object a reader yields.
- The camera elevation is modelled as a style tag, not an angle.
- Slice definitions and 2D zoom of the view groups, and `getData(uid)` error
  reporting.
- `giveManualToolPhysicalProperties`, `probeAvailable` and the tool
  configuration parser. The worker's tools arrive as `WorkerTool` records.
- The tool-item children's own classes (`TreeItemTool`, `TreeItemImage`) beyond
  their kind and uid; fonts and activation.
- Text.Less orders strings by code point, which is the order of the
  `std::string`-keyed data manager maps. The tool maps and the patient data map
  are keyed by `QString`, which compares UTF-16 code units: a key holding a
  character beyond U+FFFF (a surrogate pair, 0xD800..0xDFFF) sorts before one
  holding a character in U+E000..U+FFFF at the same place, where the model puts
  it after (for example U+1F600 against U+FF21). For such keys the map order the
  model gives differs from the source's in ToolManagement.ToolManager.FirstProbe,
  FirstProbeIndex and FindFirstProbe (the first probe in uid order),
  ToolManagement.ToolManager.WriteTools and SavePositionHistory (the record
  order), Browser.RebuiltSpec, Browser.TreeRepository.InsertDataNodes,
  InsertToolNodes and Rebuild (the node order), and
  TreeItems.TreeItem.CreateToolManager (the child order). Keys with no
  character beyond U+FFFF, or with none in U+E000..U+FFFF, order the same way
  in both.
- Tools.Tool.Wrap: a playback wrapper is assumed to carry its base's uid.
  `PlaybackTool::getUid` is not part of this model, and nothing in the
  repository's own code fixes it. Opening keys each wrapper by its own uid and
  closing restores each base under the base's uid without erasing the
  wrapper's key, so ToolManagement.ToolManager.PlaybackRoundTrip and the
  same-keys clause of ToolManagement.ToolManager.WrapTools hold only under this
  assumption; with different uids, closing would leave each wrapper next to its
  restored base.
- ToolManagement.ToolManager.TrackerConfigured: the histories it loads are
  stated by `LoadPositionHistory`, not restated in its own contract. The worker's
  tools are assumed keyed by their own uids, and none is "ManualTool" or
  "active" (`WorkerToolsOk`).
- ToolManagement.ToolManager.BuildWorkerTools: the new tools are collected in a
  local map and merged into the tool map once, not inserted one per iteration.
  The resulting map is the same.
- ToolManagement.ToolManager.PlaybackRange: the time range is computed in its
  own pass over the tools before the wrapping pass, instead of in the same loop.
  The recorded timestamps are passed as a ghost argument.
- ToolManagement.ToolManager.DominantCheck: which of several equally ranked
  candidates `std::sort` puts first is not fixed. The contract says only that a
  highest-priority candidate wins.
- ToolManagement.ToolManager.SetConfigurationFile and SetLoggingFolder model
  the corrected setters; the as-written ones are in `Tracking` (see Findings).
- DataManagement.DataManager.AddLandmark models the corrected uid choice; the
  as-written one is `NextLandmarkUidAsWritten` (see Findings). The maximum plus
  one is computed without the `int` overflow the source has at 2147483647, so
  freshness is promised only while the largest uid reads below that.
- DataManagement.NamedLandmarksSpec and NextLandmarkUidAfterNames state their
  read-back clauses only up to 2147483647 names; beyond, `toInt` fails.
- Text.ParseNatToString, Text.ParseInt: `toInt` is modelled with the C-locale
  rules (optional sign, decimal digits, surrounding whitespace, 32-bit range).
  Qt 4 tries the system locale first, which may also accept group separators;
  that is not modelled.
- Text.Upper, Text.Lower and Text.EqualsIgnoreCase map only ASCII letters. Qt
  maps all of Unicode (e.g. U+017F and U+0131 upper-case to 'S' and 'I').
  Results agree with Qt on ASCII text only, and so do
  DataManagement.ReaderTypeTable, DataManagement.ReaderTypeIgnoresCase and the
  DataView priority rows that compare upper-cased text.
- DataManagement.DataManager.LoadImage and LoadMesh require a reader for the
  requested type. The source dereferences an absent reader (`rtCOUNT`), and
  that is undefined behaviour, not a handled case.
- ViewGroupByUid.ViewGroupData.AddDataSorted requires the patient model to know
  the uid and every listed uid. The source needs less: an already listed uid
  returns before any lookup, and otherwise the backward scan dereferences
  `getData` of the new uid and of the entries from the back down to the one
  where it stops, so an empty list needs nothing known and entries in front of
  the stopping point may be unknown. The contract does not cover those calls,
  where `getPriority` would otherwise be given the null `getData` returns for
  an unknown uid.
- `LandmarkProperty(uid)` is not part of this model. A landmark it creates is
  taken to be active and named by its uid, and an unknown uid's default landmark
  is `DefaultLandmark`.
- Deconfiguring does not remove the worker's tools from the tool map. The code
  keeps them, and the model follows the code.

## Findings

| source | as written | input that shows it | evidently intended | confidence | as-written member | corrected member |
|---|---|---|---|---|---|---|
| source/service/tracking/cxToolManagerUsingIGSTK.cpp:769-795 | From CONFIGURED, `setConfigurationFile`/`setLoggingFolder` deconfigure before assigning the new value. `deconfigured` fires synchronously and runs the reconfigure continuation, so the worker restarts with the OLD path or folder. | configured with path "a", then `setConfigurationFile("b")` | the reconfigure uses the new path or folder | not executed | Tracking.SetConfigurationFileAsWrittenUsesOldPath | Tracking.SetConfigurationFileUsesNewPath |
| Code/Data/sscDataManagerImpl.cpp:245-258 | `addLandmark` takes the maximum over landmark NAMES read as integers, not over uids. | `setLandmarkNames(["a"])`, then `addLandmark()` returns "1" and overwrites landmark "1" | a uid not already in use | not executed | DataManagement.AddLandmarkAsWrittenOverwrites | DataManagement.NextLandmarkUidFresh |
