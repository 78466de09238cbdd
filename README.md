# Tracker: a Dafny model of the usage-tracking engine

The tracker records how long a user's applications run. It keeps three things:

- an in-memory store of tracked applications: the apps store, driven by a reducer;
- a JSON stats file holding the same records;
- background threads that publish elapsed time into the store, pause and resume trackers, and award badges at fixed hour rungs.

This project models that bookkeeping. Threads, channels, the OS and the file system become inputs and outputs.

| file | module | what it models |
|---|---|---|
| `wrappers.dfy` | `Wrappers` | `Option` and `Result` |
| `seqs.dfy` | `Seqs` | the order-keeping filter used by `retain` and `filter` |
| `stats_file.dfy` | `StatsFile` | the stats file (missing, blank, parsed, corrupt); loading; the first-match merge loop of `save_to_file`; the `retain` of `delete_from_file`; the username filter |
| `tracking.dfy` | `Tracking` | the newest `TrackLog` (tracker_core/src/tracking/mod.rs) |
| `tracker_threads.dfy` | `TrackerThreads` | the per-process tracker loop and the supervisor loop of tracker_core/src/tracking/mod.rs |
| `badges.dfy` | `Badges` | `get_badge` on whole hours with the ten-rank ladder |
| `legacy_badges.dfy` | `LegacyBadges` | the older minute-based `get_badge` with string ranks |
| `apps_store.dfy` | `AppsStore` | the `AppState` class of tracker/src/store/apps_store.rs, one method per reducer arm, and the reducer itself |
| `apps_store_props.dfy` | `AppsStoreProps` | properties of the reducer's arms |
| `legacy_tracking.dfy` | `LegacyTracking` | the second-generation `TrackLog` and its tracker loop (tracker/src/tracking/mod.rs) |
| `oldest_tracking.dfy` | `OldestTracking` | the first-generation `TrackLog` with timestamps, and its endless loop (tracker/src/tracking.rs) |
| `store.dfy` | `Store` | the generic frontend `Store` with reducer and middleware |
| `user_store.dfy` | `UserStore` | the user-store reducer of tracker_core |
| `frontend_apps_store.dfy` | `FrontendAppsStore` | the first apps store, with its two-phase fetch |
| `ui_utils.dfy` | `UiUtils` | `format_time` |
| `win_process.dfy` | `WinProcess` | FILETIME arithmetic, the clamp in `get_time`, `is_active`, name caching, and memory scanning over supplied bytes |

How each kind of code is modelled:

- **State changed in place becomes a class.** `AppState` in both apps stores, `UserState` and `Store` are classes with `modifies` clauses.
  - Each method's postcondition equates the new state with a specification function of the old state, for example `AppsStore.Step` or `UserStore.UserStep`.
  - Lemmas about those functions state what the source promises.
- **Loops become methods with loop invariants.** This covers the tracker and supervisor loops, the `save_to_file` merge loop, the `PauseTracking` index loop and the memory scans. Each is proved equal to a recursive function.
- **Values become datatypes.** Records (`TrackLog`, `Badge`, `ProcessInfo`) are datatypes.

Two behaviours of the code are easy to miss:

- When a poll finds the tracked-apps channel empty (`TryRecvError::Empty`), the error flag is set and fetching ends.
- A record that `save_to_file` appends keeps its own `is_running`; only an overwritten record is marked not running.

## Model

| member | source | states |
|---|---|---|
| `StatsFile.Load` | tracker_core/src/tracking/mod.rs:191-200 | a missing or unparsable file is an error; whitespace-only content is the empty list; a parsed file gives its records |
| `StatsFile.FirstIndexOf` | tracker_core/src/tracking/mod.rs:258-270 | the index found holds the key and no earlier index does; none is found exactly when no record has the key |
| `StatsFile.Saved` | tracker_core/src/tracking/mod.rs:246-280 | the save succeeds exactly when the write does; a written file holds the merge of the loaded records (none if loading failed) with `self`; a failed write leaves a loadable file as it was |
| `StatsFile.SaveToFile` | tracker_core/src/tracking/mod.rs:246-280 | the index loop with the `is_in_file` flag equals the merge: overwrite the first record with the same key, or append `self`; an unloadable file counts as empty and is re-created; a failed write is an error |
| `StatsFile.MergeOverwritesFirstMatch` | tracker_core/src/tracking/mod.rs:258-270 | with a match at `i`, only index `i` changes and the length stays |
| `StatsFile.MergeAppendsWhenAbsent` | tracker_core/src/tracking/mod.rs:271-273 | with no match, `self` is appended unchanged |
| `StatsFile.MergeKeepsKeysUnique` | tracker_core/src/tracking/mod.rs:258-273 | a file with unique process names keeps them unique after a merge |
| `StatsFile.MergeKeepsKeys` | tracker_core/src/tracking/mod.rs:258-273 | every key stored before a merge is still found after it, and so is the key of `self` |
| `StatsFile.MergeThenFind` | tracker_core/src/tracking/mod.rs:258-273 | after a merge, the first record with the key is the overwritten one, or `self` at the end |
| `StatsFile.SaveThenLoad` | tracker_core/src/tracking/mod.rs:246-280 | round trip: after a successful write, loading finds the merged record first under its key |
| `StatsFile.SaveWriteFailure` | tracker_core/src/tracking/mod.rs:247-256 | a failed write returns an error and leaves the file as loading left it, possibly re-created blank |
| `StatsFile.RecordsOf` | tracker_core/src/tracking/mod.rs:18-24 | errors exactly when loading fails, with the load's error; a blank file gives no records; the result is never longer than the file |
| `StatsFile.RecordsOfMembership` | tracker_core/src/tracking/mod.rs:18-24 | a load error passes through; otherwise a record is kept exactly when its username matches |
| `StatsFile.Deleted` | tracker_core/src/tracking/mod.rs:236-244 | succeeds exactly when loading and writing succeed; a load error is returned as it is; a failure never changes the file; after a success no record has the key |
| `StatsFile.DeleteRemovesEveryMatch` | tracker_core/src/tracking/mod.rs:236-244 | a load error is returned with nothing written; otherwise the stored list is the loaded one filtered in order: every record with the key is gone and every other record is kept |
| `StatsFile.DeleteAbsentKeyKeepsRecords` | tracker_core/src/tracking/mod.rs:236-244 | deleting an absent key rewrites the same records in the same order |
| `Seqs.FilterMembership` | tracker_core/src/tracking/mod.rs:239 | `retain` keeps exactly the elements that satisfy the predicate |
| `Seqs.FilterRemoveDropped` | tracker/src/store/apps_store.rs:196-199 | removing one element that the filter drops does not change the filtered result |
| `Tracking.TrackLog.AddUptime` | tracker_core/src/tracking/mod.rs:224-226 | uptime grows by exactly `seconds`; no other field changes |
| `Tracking.TrackLog.SetUptime` | tracker_core/src/tracking/mod.rs:228-230 | uptime becomes `seconds`; no other field changes |
| `Tracking.TrackLog.SetDisplayName` | tracker_core/src/tracking/mod.rs:232-234 | only the display name changes |
| `Tracking.NewTrackLog` | tracker_core/src/tracking/mod.rs:213-222 | uptime 0, no badges, running, with the given names |
| `Tracking.Overwrite` | tracker_core/src/tracking/mod.rs:262-266 | an overwritten record keeps its process name and username |
| `Tracking.GetStatsFromFile` | tracker_core/src/tracking/mod.rs:191-200 | a missing file is `NotFound`, an unparsable one `Malformed`, a blank one the empty list, a parsed one its records |
| `Tracking.DeleteFromFile` | tracker_core/src/tracking/mod.rs:236-244 | succeeds exactly when loading and writing succeed; a failure leaves the file as it was; after a success no record has this process name |
| `Tracking.GetTrackedProcsByUser` | tracker_core/src/tracking/mod.rs:18-24 | errors exactly when loading fails; otherwise holds exactly the loaded records of that user |
| `Tracking.SaveToFile` | tracker_core/src/tracking/mod.rs:246-280 | equals the stats-file merge, with the newest overwrite rule |
| `Tracking.SaveOverwritesFirstMatch` | tracker_core/src/tracking/mod.rs:258-270 | only the first match changes: its uptime, display name and badges come from `self`, and it is no longer running; its username, the other records and the length are unchanged |
| `Tracking.SaveAppendsNewRecord` | tracker_core/src/tracking/mod.rs:247-273 | with no match, or no loadable file, `self` is appended with its own `is_running` |
| `Tracking.SaveKeepsNamesUnique` | tracker_core/src/tracking/mod.rs:258-273 | unique process names stay unique after a save |
| `Tracking.SaveThenLoad` | tracker_core/src/tracking/mod.rs:246-280 | after a save, the first loaded record of that name carries the saved uptime, display name and badges |
| `Tracking.DeleteThenLoad` | tracker_core/src/tracking/mod.rs:236-244 | after a successful delete, no record of that name is left and all others are kept; a load error changes nothing |
| `Tracking.OverwriteKeepsKey` | tracker_core/src/tracking/mod.rs:262-266 | the overwrite never changes the process name |
| `Badges.GetBadge` | tracker_core/src/tracking/badges.rs:68-73 | a badge carries the given username and a non-empty description |
| `Badges.Description` | tracker_core/src/tracking/badges.rs:15-63 | every rank has a non-empty description |
| `Badges.GetBadgeOnlyOnRungs` | tracker_core/src/tracking/badges.rs:13-66 | a badge is given exactly when `secs / 3600` is one of 0, 1, 2, 10, 50, 100, 500, 1000, 3000 or 10000 |
| `Badges.GetBadgeMatchesLadder` | tracker_core/src/tracking/badges.rs:14-63 | the rank given is the one whose rung equals the whole hours |
| `Badges.GetBadgeAtRung` | tracker_core/src/tracking/badges.rs:13-63 | any time within a rung's hour gives that rung's rank |
| `Badges.GetBadgeRankInjective` | tracker_core/src/tracking/badges.rs:15-63 | two badges of the same rank come from the same whole hour |
| `Badges.LadderIsOrdered` | tracker_core/src/tracking/badges.rs:80-91 | the order of the ranks is the order of their rungs |
| `Badges.FirstHourIsInitial` | tracker_core/src/tracking/badges.rs:15-18 | any time under one hour gives `Initial` |
| `Badges.BetweenRungsNoBadge` | tracker_core/src/tracking/badges.rs:64-66 | 3 hours and 11 hours give no badge |
| `LegacyBadges.GetBadge` | tracker/src/tracking/badges.rs:42-50 | a badge carries the given username and a non-empty rank |
| `LegacyBadges.GetBadgeOnlyOnRungs` | tracker/src/tracking/badges.rs:13-39 | a badge is given exactly when `secs / 60` is one of 0, 1, 2, 10, 50 or 100 |
| `LegacyBadges.OneHourIsNotARung` | tracker/src/tracking/badges.rs:13-39 | the division is by 60: one minute is a rung, while 3600 s and 500 min are not |
| `LegacyBadges.RanksDistinct` | tracker/src/tracking/badges.rs:16-37 | different rungs give different rank strings |
| `TrackerThreads.AsU16` | tracker_core/src/tracking/mod.rs:45-50 | `as u16` keeps the count below 65536 and leaves smaller counts alone |
| `TrackerThreads.TrackerStart` | tracker_core/src/tracking/mod.rs:106-129 | elapsed starts at 0; the total is the uptime of the first stored record of that name, or 0; liveness is whether the process is among the running ones |
| `TrackerThreads.TrackerIteration` | tracker_core/src/tracking/mod.rs:132-184 | one pass of the loop body equals `Tick` |
| `TrackerThreads.RunTracker` | tracker_core/src/tracking/mod.rs:131-185 | the loop equals `Run` over the iterations consumed, and it ends only by breaking or running out of input |
| `TrackerThreads.Refreshed` | tracker_core/src/tracking/mod.rs:132-137 | the counters are untouched and the truncated count is remembered; liveness is re-checked only when that count changed |
| `TrackerThreads.Tick` | tracker_core/src/tracking/mod.rs:132-184 | one iteration stops exactly on a message, a closed channel or a process found gone, leaving the counters; otherwise both counters advance by 5 and the total is published first |
| `TrackerThreads.TickOnlyAboutProcess` | tracker_core/src/tracking/mod.rs:147-180 | every action an iteration dispatches names its own process |
| `TrackerThreads.PeriodicDispatch` | tracker_core/src/tracking/mod.rs:147-180 | the running part of the loop body dispatches exactly `PeriodicActions`: the total, then a save every 120 s, then a badge every 300 s |
| `TrackerThreads.TickStopsOnSignal` | tracker_core/src/tracking/mod.rs:139-145 | a message or a closed channel stops the loop before anything is dispatched |
| `TrackerThreads.TickPausesWhenGone` | tracker_core/src/tracking/mod.rs:152-161 | a process that is not running gets `PauseTracking` then `SaveData`, and the loop stops |
| `TrackerThreads.TickKeepsLivenessWithoutCountChange` | tracker_core/src/tracking/mod.rs:132-137 | liveness is re-checked only when the process count changed |
| `TrackerThreads.TickWhileRunning` | tracker_core/src/tracking/mod.rs:147-184 | the total is published first; `SaveData` exactly when `elapsed % 120 == 0`; a badge exactly when `elapsed % 300 == 0` and the total is on a rung; both counters advance by 5 |
| `TrackerThreads.RunKeepsOffset` | tracker_core/src/tracking/mod.rs:182-184 | `total_time - elapsed` never changes over a run |
| `TrackerThreads.RunStaysStopped` | tracker_core/src/tracking/mod.rs:139-161 | once the loop has broken, later observations change nothing |
| `TrackerThreads.FirstTickSavesAndChecksBadge` | tracker_core/src/tracking/mod.rs:163-180 | the first iteration on a running process saves and awards the badge for the starting total, if any |
| `TrackerThreads.RestartedAppsExactly` | tracker_core/src/tracking/mod.rs:67-81 | only resumes are produced; a resume for a name appears exactly when a stopped record of that name is among the running processes |
| `TrackerThreads.SupervisorIgnoresSameCount` | tracker_core/src/tracking/mod.rs:53 | with an unchanged count, the supervisor only queries |
| `TrackerThreads.SupervisorResumesOnCountChange` | tracker_core/src/tracking/mod.rs:53-84 | with a changed count, it resumes exactly the restarted records and records the new count |
| `TrackerThreads.ResumeRestarted` | tracker_core/src/tracking/mod.rs:67-81 | the `for_each` over the tracked records dispatches exactly `RestartedApps`, in record order |
| `TrackerThreads.RunSupervisor` | tracker_core/src/tracking/mod.rs:31-87 | the loop equals `SupervisorRun` from `prev_proc_num = 0`, and the count stays below 65536 |
| `AppsStore.DefaultView` | tracker/src/store/apps_store.rs:22-34 | the default state: empty lists, all flags false, no error, no receivers, no senders |
| `AppsStore.RemoveAt` | tracker/src/store/apps_store.rs:109-115 | `Vec::remove` shifts the later elements down by one and keeps the earlier ones |
| `AppsStore.PausedApps` | tracker/src/store/apps_store.rs:201-207 | the records keep their count |
| `AppsStore.PauseSendersAsWritten` | tracker/src/store/apps_store.rs:196-200 | the sender loop as written panics exactly when a sender of that name is not the last one; otherwise it removes every sender of that name |
| `AppsStore.PauseTrackingPanicsExample` | tracker/src/store/apps_store.rs:196-200 | pausing the first of two tracked processes panics |
| `AppsStore.FindFirst` | tracker/src/store/apps_store.rs:62-68 | the index scan finds the first record with that process name |
| `AppsStore.IsAppTracked` | tracker/src/store/apps_store.rs:284-298 | true exactly when some tracked record has that process name |
| `AppsStore.AppState.constructor` | tracker/src/store/apps_store.rs:22-34 | the store starts in the default state |
| `AppsStore.AppState.FetchTrackedApps` | tracker/src/store/apps_store.rs:38-61 | equals `FetchedTracked`: idle starts the fetch; data replaces the list and sets the error flag when empty; `Empty` sets the error flag; `Disconnected` changes nothing |
| `AppsStore.AppState.FetchUntrackedApps` | tracker/src/store/apps_store.rs:125-144 | equals `FetchedUntracked`, the same protocol for the running processes |
| `AppsStore.AppState.AddTrackedApp` | tracker/src/store/apps_store.rs:62-76 | equals `AddedApp`: nothing happens if the name is tracked; otherwise one new record and one sender |
| `AppsStore.AppState.SaveData` | tracker/src/store/apps_store.rs:77-92 | changes nothing in the store; saves the first record of that name, if any |
| `AppsStore.AppState.DeleteTrackedApp` | tracker/src/store/apps_store.rs:93-124 | equals `DeletedApp`: the record is removed only when the file deletion succeeds |
| `AppsStore.AppState.AddBadgeToProc` | tracker/src/store/apps_store.rs:145-160 | requires the record, which the source unwraps; appends the badge unless its rank is already there |
| `AppsStore.AppState.UpdateAppTime` | tracker/src/store/apps_store.rs:162-177 | only the first matching record's uptime changes |
| `AppsStore.AppState.ChangeTrackedAppName` | tracker/src/store/apps_store.rs:178-191 | only the first matching record's display name changes |
| `AppsStore.AppState.PauseTracking` | tracker/src/store/apps_store.rs:193-208 | corrected, see ## Findings: every sender of that name is removed, and every record of that name is marked not running |
| `AppsStore.AppState.RemoveSendersOf` | tracker/src/store/apps_store.rs:196-200 | the corrected sender loop removes exactly the senders of that name, keeping the rest in order |
| `AppsStore.AppState.MarkNotRunning` | tracker/src/store/apps_store.rs:201-207 | every record of that name is marked not running |
| `AppsStore.AppState.ResumeTracking` | tracker/src/store/apps_store.rs:209-222 | equals `Resumed`: the first match is marked running and one sender is appended |
| `AppsStore.AppState.SaveAllData` | tracker/src/store/apps_store.rs:223-235 | changes nothing in the store; equals `SavedAll`: every record is saved in order, each with its own outcome, and a failed save does not stop the loop |
| `AppsStore.AppState.QueryUntrackedApps` | tracker/src/store/apps_store.rs:236-238 | the running list becomes the enumeration, or empty when it fails |
| `AppsStore.AppState.CleanErrorMsg` | tracker/src/store/apps_store.rs:239 | only the error is cleared |
| `AppsStore.AppState.Reduce` | tracker/src/store/apps_store.rs:36-242 | corrected, see ## Findings (its `PauseTracking` arm): the reducer equals `Step` on every action |
| `AppsStore.Step` | tracker/src/store/apps_store.rs:36-242 | only `SaveData`, `SaveAllData` and `DeleteTrackedApp` change the file; at most one effect, and only from the fetches, `AddTrackedApp`, `DeleteTrackedApp` and `ResumeTracking`; the senders change only under `AddTrackedApp`, `PauseTracking` and `ResumeTracking` |
| `AppsStoreProps.AddTrackedAppAppendsOnce` | tracker/src/store/apps_store.rs:62-76 | a tracked name changes nothing; a new name appends one record (uptime 0, no badges, display name = process name, running), one sender and one tracker start |
| `AppsStoreProps.AddTrackedAppIdempotent` | tracker/src/store/apps_store.rs:62-76 | adding the same name twice is adding it once |
| `AppsStoreProps.AddTrackedAppKeepsNamesUnique` | tracker/src/store/apps_store.rs:62-76 | process names stay unique |
| `AppsStoreProps.AddBadgeKeepsRanksUnique` | tracker/src/store/apps_store.rs:145-160 | the badge's rank is present afterwards; ranks stay unique; a present rank changes nothing; other records are untouched |
| `AppsStoreProps.UpdateAppTimeSetsExactly` | tracker/src/store/apps_store.rs:162-177 | the uptime is set, not added; only the first match changes; an unknown name changes nothing |
| `AppsStoreProps.UpdateAppTimeLastWins` | tracker/src/store/apps_store.rs:162-177 | two updates leave the second value |
| `AppsStoreProps.ChangeNameSetsOnlyDisplayName` | tracker/src/store/apps_store.rs:178-191 | only the first match's display name changes; an unknown name changes nothing |
| `AppsStoreProps.PauseTrackingStopsEveryMatch` | tracker/src/store/apps_store.rs:193-208 | every record of that name stops running, others are untouched; a sender survives exactly when it is for another name |
| `AppsStoreProps.PauseTrackingIdempotent` | tracker/src/store/apps_store.rs:193-208 | pausing twice is pausing once |
| `AppsStoreProps.ResumeTrackingAppendsSender` | tracker/src/store/apps_store.rs:209-222 | an unknown name changes nothing; otherwise only the first match runs again, and one sender and one tracker start are added, even if a sender exists |
| `AppsStoreProps.DeleteTrackedAppRemovesOnSuccess` | tracker/src/store/apps_store.rs:93-124 | senders are never removed; the record is removed exactly when the file deletion succeeds, otherwise nothing changes |
| `AppsStoreProps.RemoveAtKeepsNamesUnique` | tracker/src/store/apps_store.rs:109-115 | removing a record keeps the names unique |
| `AppsStoreProps.FetchTrackedProtocol` | tracker/src/store/apps_store.rs:38-61 | idle → fetching, no error; then data → installed, error iff empty; `Empty` → error, not fetching; `Disconnected` → unchanged |
| `AppsStoreProps.FetchUntrackedProtocol` | tracker/src/store/apps_store.rs:125-144 | the same protocol, except that the error flag ignores emptiness |
| `AppsStoreProps.SaveAllKeepsEverySavedName` | tracker/src/store/apps_store.rs:223-235 | every record whose own save succeeded has its process name in the file afterwards, whatever the other saves did; when all succeed, every tracked name is stored |
| `AppsStoreProps.SaveAllFailedKeepsFile` | tracker/src/store/apps_store.rs:223-235 | when every save fails, a loadable file is left as it was |
| `AppsStoreProps.ReadOnlyActionsKeepRecords` | tracker/src/store/apps_store.rs:77-92 | `SaveData`, `SaveAllData`, `QueryUntrackedApps`, `CleanErrorMsg` and `None` never touch the tracked records or senders |
| `AppsStoreProps.StepKeepsNamesUnique` | tracker/src/store/apps_store.rs:36-242 | every reducer action keeps process names unique |
| `AppsStoreProps.RecordEditsKeepNamesUnique` | tracker/src/store/apps_store.rs:145-191 | setting uptime, display name or badges keeps process names unique |
| `AppsStoreProps.PauseResumeKeepNamesUnique` | tracker/src/store/apps_store.rs:193-222 | pausing and resuming keep process names unique |
| `AppsStoreProps.ListChangesKeepNamesUnique` | tracker/src/store/apps_store.rs:38-124 | fetching, adding and deleting keep process names unique, provided a fetched list has unique names |
| `AppsStoreProps.SameNamesKeepUnique` | tracker/src/store/apps_store.rs:162-207 | rewriting records without changing their names keeps the names unique |
| `LegacyTracking.TrackLog.AddUptime` | tracker/src/tracking/mod.rs:126-128 | uptime grows by exactly `seconds`; no other field changes |
| `LegacyTracking.TrackLog.SetUptime` | tracker/src/tracking/mod.rs:130-132 | uptime becomes `seconds`; no other field changes |
| `LegacyTracking.TrackLog.SetDisplayName` | tracker/src/tracking/mod.rs:134-136 | only the display name changes |
| `LegacyTracking.NewTrackLog` | tracker/src/tracking/mod.rs:116-124 | uptime 0 and no badges |
| `LegacyTracking.Overwrite` | tracker/src/tracking/mod.rs:162-167 | an overwritten record keeps its process name and username |
| `LegacyTracking.OverwriteKeepsKey` | tracker/src/tracking/mod.rs:162-167 | the overwrite never changes the process name |
| `LegacyTracking.GetStatsFromFile` | tracker/src/tracking/mod.rs:95-104 | a missing file is `NotFound`, an unparsable one `Malformed`, a blank one the empty list, a parsed one its records |
| `LegacyTracking.DeleteFromFile` | tracker/src/tracking/mod.rs:138-146 | succeeds exactly when loading and writing succeed; a failure leaves the file as it was; after a success no record has this process name |
| `LegacyTracking.GetTrackedProcsByUser` | tracker/src/tracking/mod.rs:17-23 | errors exactly when loading fails; otherwise holds exactly the records of that user |
| `LegacyTracking.SaveToFile` | tracker/src/tracking/mod.rs:148-181 | equals the stats-file merge, with this generation's overwrite |
| `LegacyTracking.SaveOverwritesFirstMatch` | tracker/src/tracking/mod.rs:160-171 | only the first match changes, and only in uptime, display name and badges |
| `LegacyTracking.SaveAppendsNewRecord` | tracker/src/tracking/mod.rs:149-174 | with no match, or no loadable file, `self` is appended |
| `LegacyTracking.SaveThenLoad` | tracker/src/tracking/mod.rs:148-181 | after a save, the first loaded record of that name carries the saved fields |
| `LegacyTracking.DeleteThenLoad` | tracker/src/tracking/mod.rs:138-146 | after a successful delete, exactly the records of other names remain |
| `LegacyTracking.FindProc` | tracker/src/tracking/mod.rs:39 | finds a process exactly when one of that name is enumerated, and the process found has that name |
| `LegacyTracking.StartTotal` | tracker/src/tracking/mod.rs:41-58 | the starting total is the in-memory uptime; else the OS-reported age of the process found (a `get_time` error panics); else 0 |
| `LegacyTracking.LoopIteration` | tracker/src/tracking/mod.rs:61-89 | one pass of the loop body equals `LoopTick` |
| `LegacyTracking.RunLoop` | tracker/src/tracking/mod.rs:60-90 | the loop equals `LoopRun` over the iterations consumed |
| `LegacyTracking.TickStops` | tracker/src/tracking/mod.rs:61-85 | the loop stops exactly on a message, a closed channel or a missing process, dispatching nothing |
| `LegacyTracking.TickWhileTargetHeld` | tracker/src/tracking/mod.rs:68-89 | `UpdateAppTime(total)` exactly when `is_active` says yes, and then first; an inactive process does not stop the loop; `SaveData` and a fresh lookup exactly when `elapsed % 60 == 0`; both counters advance by 5 |
| `LegacyTracking.RunKeepsOffset` | tracker/src/tracking/mod.rs:88-89 | `total_time - elapsed` never changes over a run |
| `LegacyTracking.LostProcessStopsAfterLookup` | tracker/src/tracking/mod.rs:74-85 | a process gone at the first re-enumeration ends the thread at the next iteration |
| `OldestTracking.TrackLog.SetProcessName` | tracker/src/tracking.rs:86-88 | only the process name changes |
| `OldestTracking.TrackLog.AddUptime` | tracker/src/tracking.rs:90-92 | uptime grows by exactly `seconds`; no other field changes |
| `OldestTracking.TrackLog.SetUptime` | tracker/src/tracking.rs:95-97 | uptime becomes `seconds`; no other field changes |
| `OldestTracking.TrackLog.SetLastOpened` | tracker/src/tracking.rs:99-101 | only the opening time changes |
| `OldestTracking.TrackLog.SetLastClosed` | tracker/src/tracking.rs:102-104 | only the closing time changes |
| `OldestTracking.NewTrackLog` | tracker/src/tracking.rs:75-84 | uptime 0, the given names and clock readings, and the path `./stats.json` |
| `OldestTracking.Overwrite` | tracker/src/tracking.rs:120-124 | an overwritten record keeps its username, process name and path |
| `OldestTracking.OverwriteKeepsKey` | tracker/src/tracking.rs:120-124 | the overwrite never changes the process name |
| `OldestTracking.GetStatsFromFile` | tracker/src/tracking.rs:53-62 | blank content is the empty list |
| `OldestTracking.SaveToFile` | tracker/src/tracking.rs:106-139 | equals the stats-file merge, with this generation's overwrite |
| `OldestTracking.SaveOverwritesFirstMatch` | tracker/src/tracking.rs:118-129 | only the first match changes, and only in uptime, last-closed and last-opened |
| `OldestTracking.SaveAppendsNewRecord` | tracker/src/tracking.rs:107-132 | with no match, or no loadable file, `self` is appended |
| `OldestTracking.RunTracker` | tracker/src/tracking.rs:21-50 | the thread creates the record, stamps its opening time and runs every iteration given (there is no exit), equal to `LoopRun` |
| `OldestTracking.TickSetsAbsoluteUptime` | tracker/src/tracking.rs:32-35 | an active iteration sets the uptime to the reported age; it is not added |
| `OldestTracking.TickSavesAge` | tracker/src/tracking.rs:35-39 | after an active iteration with a successful write, the file's first record of that name has that age |
| `OldestTracking.RunKeepsIdentity` | tracker/src/tracking.rs:26-49 | the loop changes only the in-memory record's uptime |
| `OldestTracking.IdleTickChangesNothing` | tracker/src/tracking.rs:32-41 | an absent or inactive process changes nothing in memory or on disk |
| `Store.RunMiddleware` | frontend/src/store/mod.rs:39-42 | one message is collected per middleware |
| `Store.Store.constructor` | frontend/src/store/mod.rs:17-23 | the default state, the given reducer, no middleware |
| `Store.Store.UseMiddleware` | frontend/src/store/mod.rs:30-32 | the middleware is appended after the existing ones; the state is unchanged |
| `Store.Store.Selector` | frontend/src/store/mod.rs:34-36 | returns the current state and changes nothing |
| `Store.Store.Dispatch` | frontend/src/store/mod.rs:25-28 | equals `Dispatched`: the reducer, then the middleware strategy, within the nesting bound |
| `Store.Store.MiddlewareStrategy` | frontend/src/store/mod.rs:38-46 | every middleware runs in order on the reduced state; then each result is dispatched in order |
| `Store.NoMiddlewareAppliesReducerOnce` | frontend/src/store/mod.rs:25-28 | with no middleware, a dispatch applies the reducer exactly once |
| `Store.MiddlewareInOrder` | frontend/src/store/mod.rs:39-42 | the i-th message is the i-th middleware's answer on the state the first i middleware left |
| `Store.NeverCompletes` | frontend/src/store/mod.rs:25-46 | with at least one middleware, no dispatch ever completes, whatever the nesting bound |
| `UserStore.UserState.constructor` | tracker_core/src/store/user_store.rs:17-24 | username "Guest", not logged in |
| `UserStore.UserState.ChangeUsername` | tracker_core/src/store/user_store.rs:27-33 | the name becomes the new one; the login flag is untouched |
| `UserStore.UserState.InitUsername` | tracker_core/src/store/user_store.rs:35-47 | a logged-in user panics (`todo!()`); otherwise the name becomes the logon name on success and stays on failure |
| `UserStore.UserState.Reduce` | tracker_core/src/store/user_store.rs:50-61 | equals `UserStep` and never reaches `todo!()` |
| `UserStore.StepLogsOut` | tracker_core/src/store/user_store.rs:50-61 | `InitConfig` logs out; a name change keeps the flag; other actions change nothing |
| `UserStore.ChangeUsernameIdempotent` | tracker_core/src/store/user_store.rs:27-33 | changing to the current name is a no-op; changing twice is changing once |
| `UserStore.InitConfigKeepsNameOnFailure` | tracker_core/src/store/user_store.rs:39-45 | a failed logon lookup keeps the name |
| `FrontendAppsStore.AppState.constructor` | frontend/src/store/apps_store.rs:21-31 | the default state |
| `FrontendAppsStore.AppState.FetchTrackedAppsStart` | frontend/src/store/apps_store.rs:90-106 | installs the receiver and marks fetching; nothing else changes |
| `FrontendAppsStore.AppState.FetchUntrackedAppsStart` | frontend/src/store/apps_store.rs:74-88 | installs the receiver and marks fetching; nothing else changes |
| `FrontendAppsStore.AppState.Reduce` | frontend/src/store/apps_store.rs:33-72 | the reducer equals `FrontStep` on every action |
| `FrontendAppsStore.FetchTrackedProtocol` | frontend/src/store/apps_store.rs:35-49 | idle → fetching with a receiver; data → installed, not fetching; a receive error → nothing changes, still fetching |
| `FrontendAppsStore.FetchUntrackedProtocol` | frontend/src/store/apps_store.rs:54-68 | the same protocol for the running processes |
| `FrontendAppsStore.OtherActionsKeepState` | frontend/src/store/apps_store.rs:50-53 | add, delete and `None` leave every field unchanged; only add starts a tracker |
| `FrontendAppsStore.FetchTrackedRoundTrip` | frontend/src/store/apps_store.rs:35-43 | two fetches from the initial state install the list and leave the store idle |
| `UiUtils.FormatTime` | frontend/src/ui/utils/mod.rs:48-57 | hours exactly above 3600 s, minutes exactly in (60, 3600], seconds at or below 60 |
| `UiUtils.FormatTimeRoundsDown` | frontend/src/ui/utils/mod.rs:48-57 | the count is the whole number of units: count·unit ≤ secs < (count+1)·unit |
| `UiUtils.FormatTimeRanges` | frontend/src/ui/utils/mod.rs:48-57 | hours ≥ 1, minutes in [1, 60], seconds ≤ 60 |
| `UiUtils.FormatTimeThresholds` | frontend/src/ui/utils/mod.rs:49-56 | 3600 s reads "60 minutes", 3601 s "1 hours", 60 s "60 seconds", 61 s "1 minutes" |
| `WinProcess.CreateDefFileTime` | tracker/src/win_funcs/process.rs:258-263 | the zero FILETIME |
| `WinProcess.Ticks` | tracker/src/win_funcs/process.rs:266-267 | ticks are high·2³² + low, fit in u64, and both halves are recoverable |
| `WinProcess.FileTimeNanos` | tracker/src/win_funcs/process.rs:267 | the nanosecond value wraps to u64 |
| `WinProcess.FileTimeNanosExact` | tracker/src/win_funcs/process.rs:267 | ticks·100 is exact exactly when ticks ≤ u64::MAX / 100 |
| `WinProcess.CreationUnixNanos` | tracker/src/win_funcs/process.rs:103-108 | Windows ticks less the 11644473600 s epoch offset |
| `WinProcess.GetTime` | tracker/src/win_funcs/process.rs:87-118 | an error exactly when `GetProcessTimes` fails; otherwise now minus creation, clamped to 0 when creation is later |
| `WinProcess.GetTimeFromUnixEpoch` | tracker/src/win_funcs/process.rs:103-113 | a process created at the Unix epoch is as old as "now" |
| `WinProcess.GetTimeMonotonic` | tracker/src/win_funcs/process.rs:103-113 | the age never decreases as "now" advances, and grows no faster than "now" |
| `WinProcess.IsActive` | tracker/src/win_funcs/process.rs:120-135 | an error exactly when the query returns 0; otherwise true exactly when the exit code is STILL_ACTIVE (259) |
| `WinProcess.NameLookupCaches` | tracker/src/win_funcs/process.rs:47-50 | once a real name is cached, later calls return it with no OS call |
| `WinProcess.NameLookupRetriesAfterFailure` | tracker/src/win_funcs/process.rs:47-85 | a failed lookup keeps "Unknown", so the next call asks the OS again |
| `WinProcess.Process.constructor` | tracker/src/win_funcs/process.rs:39-44 | a new process has the given pid and the name "Unknown" |
| `WinProcess.Process.GetProcName` | tracker/src/win_funcs/process.rs:47-85 | equals `NameLookup` on the cached name; the pid is unchanged |
| `WinProcess.OpenProc` | tracker/src/win_funcs/process.rs:32-46 | fails exactly when no handle is obtained; otherwise a fresh process with that pid and name "Unknown" |
| `WinProcess.Unsigned` | tracker/src/win_funcs/process.rs:200 | an i32 as its 32-bit pattern |
| `WinProcess.LeBytes` | tracker/src/win_funcs/process.rs:200 | `to_ne_bytes` on little-endian gives four bytes |
| `WinProcess.LeValue` | tracker/src/win_funcs/process.rs:213-215 | four little-endian bytes give a 32-bit value |
| `WinProcess.FromLeBytes` | tracker/src/win_funcs/process.rs:213-215 | four bytes read back as an i32 |
| `WinProcess.LeBytesRoundTrip` | tracker/src/win_funcs/process.rs:200-215 | encoding then decoding an i32 gives it back |
| `WinProcess.FromLeBytesRoundTrip` | tracker/src/win_funcs/process.rs:200-215 | decoding then encoding four bytes gives them back |
| `WinProcess.WindowMatchIff` | tracker/src/win_funcs/process.rs:213-215 | a window equals the target's bytes exactly when it decodes to the target |
| `WinProcess.HitsFromMembership` | tracker/src/win_funcs/process.rs:212-218 | an address is reported exactly when its window equals the pattern |
| `WinProcess.RegionHitsMembership` | tracker/src/win_funcs/process.rs:205-220 | within one region, an address is reported exactly when it is a hit there |
| `WinProcess.ScanRegionsMembership` | tracker/src/win_funcs/process.rs:202-222 | an address is reported exactly when it is a hit in some scanned region |
| `WinProcess.ScanWindows` | tracker/src/win_funcs/process.rs:212-218 | the window loop equals `HitsFrom` |
| `WinProcess.ScanMemory` | tracker/src/win_funcs/process.rs:196-225 | the scan equals scanning the writable regions only |
| `WinProcess.ScanMemoryFinds` | tracker/src/win_funcs/process.rs:196-225 | an address is found exactly when it is a hit in a region with Protect & MASK ≠ 0 |
| `WinProcess.Rescan` | tracker/src/win_funcs/process.rs:168-175 | the list never grows, and every location left reads back as the new target's four bytes |
| `WinProcess.RescanKeepsExactlyMatches` | tracker/src/win_funcs/process.rs:168-175 | a location survives exactly when its re-read bytes equal the new target; unreadable ones are dropped |
| `WinProcess.RescanIdempotent` | tracker/src/win_funcs/process.rs:168-175 | rescanning twice for the same target is rescanning once |
| `WinProcess.QueryBaseExtends` | tracker/src/win_funcs/process.rs:239-246 | each next query starts at the previous region's base plus its size |
| `WinProcess.WalkedExtends` | tracker/src/win_funcs/process.rs:239-246 | a region returned by the query at the end of the walk extends it: every region was returned by the query at its base |
| `WinProcess.ReadMemoryRegions` | tracker/src/win_funcs/process.rs:227-249 | each region was queried at the previous base plus size; the walk ends exactly when the query finds nothing, within the bound |

## Left out

- Threads, `mpsc` channels, `Mutex`, `Arc`, `lazy_static` and `thread::sleep` are left out. Each loop runs over a sequence of observations. A channel is a received value, `Empty` or `Disconnected`. A spawned thread or a new tracker is an effect value.
- JSON serialisation and file I/O are left out. The stats file is `Absent`, `Blank`, `Stored(records)` or `Corrupt`. Each save or delete takes one outcome for its `File::create` and its `fs::write`; `SaveAllData` takes one such outcome per record.
- A failed `serde_json::to_string_pretty` is not modelled, because records always serialise.
- OS calls are inputs: process enumeration, `GetProcessTimes`, `GetExitCodeProcess`, `GetModuleBaseNameA`, `VirtualQueryEx`, `ReadProcessMemory`, `SystemTime::now` and the logon-name lookup.
- `GetModuleBaseNameA` truncates names to 64 bytes and the result is decoded as UTF-8. Neither is modelled; a name is an input string.
- `write_memory`, `read_memory`'s handle use, the `pid()`/`name()` getters and `Drop` are left out. They only call the OS.
- Addresses are unbounded, so the 64-bit wrap of `BaseAddress + RegionSize` is not modelled. The same holds for the u64 `elapsed` and `total_time` counters.
- `WinProcess.ReadMemoryRegions`: the walk is bounded by `fuel`, because the OS walk ends only when the query fails.
- `Tracking.TrackLog.AddUptime`, `LegacyTracking.TrackLog.AddUptime`, `OldestTracking.TrackLog.AddUptime`: the setters are value updates on a datatype, not in-place mutation. Records are owned values with no aliasing. u64 overflow of `add_uptime` is not modelled.
- `WinProcess.FileTimeNanos` wraps `ticks * 100` modulo 2^64, as a release build does. A debug build panics on that overflow instead.
- `WinProcess.LeBytes` assumes `to_ne_bytes` is little-endian, as on x86 and x64 Windows.
- `UiUtils.FormatTime` returns the count and the unit, not the formatted text.
- `Store.Store.Dispatch`: the nesting of `dispatch` is bounded by `fuel`. The source has no base case, so a dispatch with middleware recurses without end. The model reports that as "not completed".
- `Store.Store.Dispatch`: the reducer and middleware are functions from the old state to the new one, rather than closures mutating `&mut T`.
- `AppsStore.AppState.RemoveSendersOf` runs the index loop on a local copy of the sender list and stores it once at the end. The source removes from the field itself; nothing else can observe the list during the loop.
- `AppsStore.AppState.AddBadgeToProc` requires the record to exist. The source unwraps it and panics otherwise.
- `WinProcess.NameLookupCaches` requires that the OS name is not literally "Unknown". That name would be asked for again on every call.
- `OldestTracking.RunTracker`: `enum_procs_by_name().unwrap()` and `get_time().unwrap()` would panic on an OS error. The model takes their successful results as inputs.
- `LegacyTracking.RunLoop`: the same holds for the process enumerations.
- The process-count check in `TrackerThreads` uses `len() as u16`, modelled as the count modulo 65536.
- UI rendering, floating-point styling and the prompt loop of `main.rs` are not part of this model. The same holds for tracker/src/store/user_store.rs, whose reducer only prints.

## Findings

| source | as written | input that shows it | evidently intended | confidence | as-written member | corrected member |
|---|---|---|---|---|---|---|
| tracker/src/store/apps_store.rs:196-199 | `PauseTracking` loops `for ind in 0..len` over the length taken before the loop and calls `channel_senders.remove(ind)` inside it. Once a sender is removed, the vector is shorter than the range, and `channel_senders[ind]` indexes past its end. | Senders `[("game.exe", 0), ("editor.exe", 1)]` and `PauseTracking("game.exe")`: after removing index 0, index 1 is out of bounds and the store panics. | Remove every sender of that name and keep the others in order. | not executed | `AppsStore.PauseSendersAsWritten`, `AppsStore.PauseTrackingPanicsExample` | `AppsStore.AppState.RemoveSendersOf`, `AppsStore.AppState.PauseTracking`, `AppsStore.AppState.Reduce` |
