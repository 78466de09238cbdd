/**
 * The application-state reducer of the tracking engine (tracker/src/store/apps_store.rs): the in-memory
 * table of tracked applications, the list of running ones, the two fetch protocols and the handles of the
 * per-application tracker threads.
 *
 * Channels, threads and the operating system are inputs (`Env`) and outputs (`Effect`); the stats file is
 * passed in and returned. Each arm of `reducer` is a method of `AppState` proved against a specification
 * function on an `AppsView` of its fields, and `Step` gathers those functions into one transition.
 */
module AppsStore {
  import opened Wrappers
  import opened Badges
  import opened Tracking
  import Seqs
  import SF = StatsFile
  import WinProcess

  type ProcessInfo = WinProcess.ProcessInfo

  /** `Actions`; `Actions::None` is called `NoAction` here. */
  datatype Action =
    | NoAction
    | FetchTrackedApps
    | FetchUntrackedApps
    | AddTrackedApp(username: string, procName: string)
    | UpdateAppTime(procName: string, secs: nat)
    | DeleteTrackedApp(procName: string)
    | SaveData(procName: string)
    | CleanErrorMsg
    | SaveAllData
    | ChangeTrackedAppName(procName: string, newDisplayName: string)
    | QueryUntrackedApps
    | PauseTracking(procName: string)
    | ResumeTracking(procName: string)
    | AddBadgeToProc(badge: Badge, procName: string)

  /** `ChannelSender`: the sending end of the channel to the tracker thread of one process. */
  datatype ChannelSender = ChannelSender(procName: string, channel: nat)

  /** What `try_recv` returned on a fetch channel. */
  datatype TryRecv<T> = Received(data: T) | Empty | Disconnected

  /**
   * What the world answers during one reducer call: the replies waiting on the two fetch channels, the
   * result of `get_running_procs`, the channel `start_tracking` returns, the file system's outcome for a
   * single save or delete, and its outcome for the save of each record, by index, during `SaveAllData`.
   */
  datatype Env = Env(
    trackedReply: TryRecv<seq<TrackLog>>,
    untrackedReply: TryRecv<seq<ProcessInfo>>,
    runningProcs: Option<seq<ProcessInfo>>,
    newChannel: nat,
    fs: SF.FsOutcome,
    saveAllFs: nat -> SF.FsOutcome)

  /** What a reducer call does outside the state: threads started and messages sent. */
  datatype Effect =
    | SpawnTrackedFetch
    | SpawnUntrackedFetch
    | StartTracking(procName: string, channel: nat)
    | SendTerminate(channel: nat)

  /** The fields of `AppState`; a receiver is modelled by whether it is installed. */
  datatype AppsView = AppsView(
    trackedApps: seq<TrackLog>,
    untrackedApps: seq<ProcessInfo>,
    isFetchingTracked: bool,
    isFetchingUntracked: bool,
    isErrorUntracked: bool,
    isErrorTracked: bool,
    error: Option<string>,
    hasTrackedRx: bool,
    hasUntrackedRx: bool,
    channelSenders: seq<ChannelSender>)

  /** `AppState::default()`. */
  function DefaultView(): (v: AppsView)
    ensures v.trackedApps == [] && v.untrackedApps == [] && v.channelSenders == []
    ensures !v.isFetchingTracked && !v.isFetchingUntracked && !v.isErrorTracked && !v.isErrorUntracked
    ensures v.error.None? && !v.hasTrackedRx && !v.hasUntrackedRx
  {
    AppsView([], [], false, false, false, false, None, false, false, [])
  }

  /** The key of a sender. */
  function SenderName(s: ChannelSender): string {
    s.procName
  }

  /** The index of the first tracked record named `name`, if any. */
  function FindApp(apps: seq<TrackLog>, name: string): Option<nat> {
    SF.FirstIndexOf(apps, ProcessName, name)
  }

  // ----- Specification of each arm -----

  /**
   * `FetchTrackedApps`: when idle, `fetch_tracked_apps` installs a receiver, starts the fetch and clears
   * the error; while fetching, a reply replaces the records (an empty reply is an error), `Empty` is an
   * error that ends the fetch, and `Disconnected` changes nothing.
   */
  function FetchedTracked(v: AppsView, reply: TryRecv<seq<TrackLog>>): (AppsView, seq<Effect>) {
    if !v.isFetchingTracked then
      (v.(hasTrackedRx := true, isFetchingTracked := true, isErrorTracked := false), [SpawnTrackedFetch])
    else if v.hasTrackedRx then
      match reply
      case Received(data) => (v.(isErrorTracked := |data| == 0, isFetchingTracked := false, trackedApps := data), [])
      case Empty => (v.(isErrorTracked := true, isFetchingTracked := false), [])
      case Disconnected => (v, [])
    else (v, [])
  }

  /** `FetchUntrackedApps`: the same protocol, except that an empty reply is not an error. */
  function FetchedUntracked(v: AppsView, reply: TryRecv<seq<ProcessInfo>>): (AppsView, seq<Effect>) {
    if !v.isFetchingUntracked then
      (v.(hasUntrackedRx := true, isFetchingUntracked := true, isErrorUntracked := false), [SpawnUntrackedFetch])
    else if v.hasUntrackedRx then
      match reply
      case Received(data) => (v.(untrackedApps := data, isErrorUntracked := false, isFetchingUntracked := false), [])
      case Empty => (v.(isErrorUntracked := true, isFetchingUntracked := false), [])
      case Disconnected => (v, [])
    else (v, [])
  }

  /**
   * `AddTrackedApp`: nothing when the name is already tracked; otherwise start a tracker, append a new
   * record whose display name is the process name, and append its sender.
   */
  function AddedApp(v: AppsView, username: string, procName: string, channel: nat): (AppsView, seq<Effect>) {
    if FindApp(v.trackedApps, procName).Some? then (v, [])
    else
      (v.(trackedApps := v.trackedApps + [NewTrackLog(username, procName, procName)],
          channelSenders := v.channelSenders + [ChannelSender(procName, channel)]),
       [StartTracking(procName, channel)])
  }

  /** `SaveData`: save the first record of that name; an unknown name leaves the file alone. */
  function SavedData(apps: seq<TrackLog>, name: string, file: SF.File<TrackLog>, fs: SF.FsOutcome): SF.File<TrackLog> {
    match FindApp(apps, name)
    case None => file
    case Some(i) => SF.Saved(file, apps[i], ProcessName, Overwrite, fs).1
  }

  /** `s` without its element at `i`: `Vec::remove`. */
  function RemoveAt<T>(s: seq<T>, i: nat): (r: seq<T>)
    requires i < |s|
    ensures |r| == |s| - 1
    ensures forall j :: 0 <= j < i ==> r[j] == s[j]
    ensures forall j :: i <= j < |r| ==> r[j] == s[j + 1]
  {
    s[..i] + s[i + 1..]
  }

  /**
   * `DeleteTrackedApp`: send `Terminate` to the first sender of that name, then delete the first record of
   * that name from the file and, only when that succeeds, from memory. Senders are never removed.
   */
  function DeletedApp(v: AppsView, name: string, file: SF.File<TrackLog>, fs: SF.FsOutcome)
    : (AppsView, SF.File<TrackLog>, seq<Effect>)
  {
    var effects :=
      match SF.FirstIndexOf(v.channelSenders, SenderName, name)
      case Some(j) => [SendTerminate(v.channelSenders[j].channel)]
      case None => [];
    match FindApp(v.trackedApps, name)
    case None => (v, file, effects)
    case Some(i) =>
      var (r, after) := DeleteFromFile(v.trackedApps[i], file, fs);
      (if r.Ok? then v.(trackedApps := RemoveAt(v.trackedApps, i)) else v, after, effects)
  }

  /** Some badge in the list has that rank: the `iter().find(..).is_some()` of `AddBadgeToProc`. */
  predicate HasRank(badges: seq<Badge>, rank: BadgeRank) {
    exists b :: b in badges && b.rank == rank
  }

  /** `AddBadgeToProc`: push the badge on the first record of that name unless it has that rank already. */
  function WithBadge(apps: seq<TrackLog>, name: string, badge: Badge): seq<TrackLog>
    requires FindApp(apps, name).Some?
  {
    var i := FindApp(apps, name).value;
    if HasRank(apps[i].badges, badge.rank) then apps
    else apps[i := apps[i].(badges := apps[i].badges + [badge])]
  }

  /** `UpdateAppTime`: `set_uptime` on the first record of that name. */
  function WithUptime(apps: seq<TrackLog>, name: string, secs: nat): seq<TrackLog> {
    match FindApp(apps, name)
    case None => apps
    case Some(i) => apps[i := apps[i].SetUptime(secs)]
  }

  /** `ChangeTrackedAppName`: `set_display_name` on the first record of that name. */
  function WithDisplayName(apps: seq<TrackLog>, name: string, newName: string): seq<TrackLog> {
    match FindApp(apps, name)
    case None => apps
    case Some(i) => apps[i := apps[i].SetDisplayName(newName)]
  }

  /** One record after `PauseTracking(name)`. */
  function PausedOne(app: TrackLog, name: string): TrackLog {
    if app.processName == name then app.(isRunning := false) else app
  }

  /** `PauseTracking` on the records: every record of that name is marked not running. */
  function PausedApps(apps: seq<TrackLog>, name: string): (r: seq<TrackLog>)
    ensures |r| == |apps|
  {
    seq(|apps|, i requires 0 <= i < |apps| => PausedOne(apps[i], name))
  }

  /** The senders `PauseTracking` keeps: those of other processes. */
  function OtherSender(name: string): ChannelSender -> bool {
    (s: ChannelSender) => s.procName != name
  }

  /** `PauseTracking` on the senders, as intended: every sender of that name is removed. */
  function PausedSenders(senders: seq<ChannelSender>, name: string): seq<ChannelSender> {
    Seqs.Filter(senders, OtherSender(name))
  }

  /**
   * The sender loop of `PauseTracking` panics: `for ind in 0..len` runs over the length taken before the
   * loop while `remove(ind)` shortens the vector, so indexing reaches past its end.
   */
  ghost predicate PausePanics(senders: seq<ChannelSender>, name: string) {
    exists i :: 0 <= i < |senders| - 1 && senders[i].procName == name
  }

  /**
   * The sender loop of `PauseTracking` as written: the bound is the original length, a match is removed
   * in place and the index still advances. It panics exactly when some sender of that name is not the
   * last one; when it does not panic it has removed every sender of that name.
   */
  method PauseSendersAsWritten(senders: seq<ChannelSender>, procName: string)
    returns (remaining: seq<ChannelSender>, panicked: bool)
    ensures panicked <==> PausePanics(senders, procName)
    ensures !panicked ==> remaining == PausedSenders(senders, procName)
  {
    var n := |senders|;
    remaining := senders;
    ghost var removedAt: int := -1;
    var ind := 0;
    while ind < n
      invariant 0 <= ind <= n
      invariant removedAt == -1 ==> remaining == senders
      invariant removedAt == -1 ==> forall j :: 0 <= j < ind ==> senders[j].procName != procName
      invariant removedAt != -1 ==> 0 <= removedAt < ind && senders[removedAt].procName == procName
      invariant removedAt != -1 ==> forall j :: 0 <= j < removedAt ==> senders[j].procName != procName
      invariant removedAt != -1 ==> |remaining| <= n - 1 && (ind == n ==> removedAt == n - 1)
      invariant removedAt != -1 && removedAt == ind - 1 ==> remaining == senders[..removedAt] + senders[removedAt + 1..]
    {
      if ind >= |remaining| {
        // `state.channel_senders[ind]` is out of bounds
        return remaining, true;
      }
      if remaining[ind].procName == procName {
        if removedAt == -1 {
          removedAt := ind;
        }
        remaining := remaining[..ind] + remaining[ind + 1..];
      }
      ind := ind + 1;
    }
    panicked := false;
    if removedAt == -1 {
      Seqs.FilterKeepsAll(senders, OtherSender(procName));
    } else {
      Seqs.FilterRemoveDropped(senders, n - 1, OtherSender(procName));
      assert senders[..n - 1] + senders[n..] == senders[..n - 1];
      Seqs.FilterKeepsAll(senders[..n - 1], OtherSender(procName));
    }
  }

  /** Pausing the first of two tracked processes panics. */
  method PauseTrackingPanicsExample() returns (panicked: bool)
    ensures panicked
  {
    var senders := [ChannelSender("game.exe", 0), ChannelSender("editor.exe", 1)];
    assert senders[0].procName == "game.exe";
    var remaining;
    remaining, panicked := PauseSendersAsWritten(senders, "game.exe");
  }

  /**
   * `ResumeTracking`: the first record of that name is marked running and a new tracker is started with
   * its sender appended (whether or not one exists already); an unknown name changes nothing.
   */
  function Resumed(v: AppsView, name: string, channel: nat): (AppsView, seq<Effect>) {
    match FindApp(v.trackedApps, name)
    case None => (v, [])
    case Some(i) =>
      (v.(trackedApps := v.trackedApps[i := v.trackedApps[i].(isRunning := true)],
          channelSenders := v.channelSenders + [ChannelSender(name, channel)]),
       [StartTracking(name, channel)])
  }

  /**
   * `SaveAllData`: `save_to_file` of every record, in order, each on the file the previous one left and
   * with its own outcome `fss(i)`; a failed save is reported and the loop goes on.
   */
  function SavedAll(apps: seq<TrackLog>, file: SF.File<TrackLog>, fss: nat -> SF.FsOutcome): SF.File<TrackLog> {
    if |apps| == 0 then file
    else SF.Saved(SavedAll(apps[..|apps| - 1], file, fss), apps[|apps| - 1], ProcessName, Overwrite, fss(|apps| - 1)).1
  }

  /** The one precondition of `reducer`: `AddBadgeToProc` unwraps the record it looks up. */
  predicate Enabled(v: AppsView, action: Action) {
    action.AddBadgeToProc? ==> FindApp(v.trackedApps, action.procName).Some?
  }

  /**
   * `reducer`: the new state, the stats file afterwards, and what was started or sent. Only `SaveData`,
   * `SaveAllData` and `DeleteTrackedApp` touch the file; at most one thread is started or message sent,
   * and only by the fetches, `AddTrackedApp`, `DeleteTrackedApp` and `ResumeTracking`; the senders change
   * only under `AddTrackedApp`, `PauseTracking` and `ResumeTracking`.
   */
  function Step(v: AppsView, file: SF.File<TrackLog>, action: Action, env: Env): (r: (AppsView, SF.File<TrackLog>, seq<Effect>))
    requires Enabled(v, action)
    ensures r.1 != file ==> action.SaveData? || action.SaveAllData? || action.DeleteTrackedApp?
    ensures |r.2| <= 1
    ensures |r.2| == 1 ==>
      action.FetchTrackedApps? || action.FetchUntrackedApps? || action.AddTrackedApp? || action.DeleteTrackedApp?
      || action.ResumeTracking?
    ensures r.0.channelSenders != v.channelSenders ==>
      action.AddTrackedApp? || action.PauseTracking? || action.ResumeTracking?
  {
    match action
    case NoAction => (v, file, [])
    case FetchTrackedApps => var (w, e) := FetchedTracked(v, env.trackedReply); (w, file, e)
    case FetchUntrackedApps => var (w, e) := FetchedUntracked(v, env.untrackedReply); (w, file, e)
    case AddTrackedApp(username, name) => var (w, e) := AddedApp(v, username, name, env.newChannel); (w, file, e)
    case UpdateAppTime(name, secs) => (v.(trackedApps := WithUptime(v.trackedApps, name, secs)), file, [])
    case DeleteTrackedApp(name) => DeletedApp(v, name, file, env.fs)
    case SaveData(name) => (v, SavedData(v.trackedApps, name, file, env.fs), [])
    case CleanErrorMsg => (v.(error := None), file, [])
    case SaveAllData => (v, SavedAll(v.trackedApps, file, env.saveAllFs), [])
    case ChangeTrackedAppName(name, newName) => (v.(trackedApps := WithDisplayName(v.trackedApps, name, newName)), file, [])
    case QueryUntrackedApps => (v.(untrackedApps := env.runningProcs.GetOr([])), file, [])
    case PauseTracking(name) =>
      (v.(channelSenders := PausedSenders(v.channelSenders, name), trackedApps := PausedApps(v.trackedApps, name)), file, [])
    case ResumeTracking(name) => var (w, e) := Resumed(v, name, env.newChannel); (w, file, e)
    case AddBadgeToProc(badge, name) => (v.(trackedApps := WithBadge(v.trackedApps, name, badge)), file, [])
  }

  // ----- The loops the arms share -----

  /** The `for i in 0..len { if ..process_name == name { .. break } }` search: the first index with key `k`. */
  method FindFirst<T>(s: seq<T>, key: T -> string, k: string) returns (r: Option<nat>)
    ensures r == SF.FirstIndexOf(s, key, k)
  {
    var i := 0;
    while i < |s|
      invariant 0 <= i <= |s|
      invariant forall j :: 0 <= j < i ==> key(s[j]) != k
    {
      if key(s[i]) == k {
        SF.FirstIndexOfIsFirst(s, key, k, i);
        return Some(i);
      }
      i := i + 1;
    }
    return None;
  }

  /** `is_app_tracked`: some tracked record has that process name. */
  method IsAppTracked(apps: seq<TrackLog>, procName: string) returns (tracked: bool)
    ensures tracked <==> exists i :: 0 <= i < |apps| && apps[i].processName == procName
  {
    var i := 0;
    while i < |apps|
      invariant 0 <= i <= |apps|
      invariant forall j :: 0 <= j < i ==> apps[j].processName != procName
    {
      if apps[i].processName == procName {
        return true;
      }
      i := i + 1;
    }
    return false;
  }

  /** `AppState`, updated in place by `reducer`. */
  class AppState {
    var trackedApps: seq<TrackLog>
    var untrackedApps: seq<ProcessInfo>
    var isFetchingTracked: bool
    var isFetchingUntracked: bool
    var isErrorUntracked: bool
    var isErrorTracked: bool
    var error: Option<string>
    var hasTrackedRx: bool
    var hasUntrackedRx: bool
    var channelSenders: seq<ChannelSender>

    function View(): AppsView
      reads this
    {
      AppsView(trackedApps, untrackedApps, isFetchingTracked, isFetchingUntracked, isErrorUntracked,
               isErrorTracked, error, hasTrackedRx, hasUntrackedRx, channelSenders)
    }

    /** `AppState::default()`. */
    constructor ()
      ensures View() == DefaultView()
    {
      trackedApps, untrackedApps := [], [];
      isFetchingTracked, isFetchingUntracked, isErrorUntracked, isErrorTracked := false, false, false, false;
      error := None;
      hasTrackedRx, hasUntrackedRx := false, false;
      channelSenders := [];
    }

    method FetchTrackedApps(reply: TryRecv<seq<TrackLog>>) returns (effects: seq<Effect>)
      modifies this
      ensures (View(), effects) == FetchedTracked(old(View()), reply)
    {
      effects := [];
      if !isFetchingTracked {
        // fetch_tracked_apps
        hasTrackedRx := true;
        isFetchingTracked := true;
        isErrorTracked := false;
        effects := [SpawnTrackedFetch];
      } else if hasTrackedRx {
        match reply {
          case Received(data) =>
            isErrorTracked := |data| == 0;
            isFetchingTracked := false;
            trackedApps := data;
          case Empty =>
            isErrorTracked := true;
            isFetchingTracked := false;
          case Disconnected =>
        }
      }
    }

    method FetchUntrackedApps(reply: TryRecv<seq<ProcessInfo>>) returns (effects: seq<Effect>)
      modifies this
      ensures (View(), effects) == FetchedUntracked(old(View()), reply)
    {
      effects := [];
      if !isFetchingUntracked {
        // fetch_untracked_apps
        hasUntrackedRx := true;
        isFetchingUntracked := true;
        isErrorUntracked := false;
        effects := [SpawnUntrackedFetch];
      } else if hasUntrackedRx {
        match reply {
          case Received(data) =>
            untrackedApps := data;
            isErrorUntracked := false;
            isFetchingUntracked := false;
          case Empty =>
            isErrorUntracked := true;
            isFetchingUntracked := false;
          case Disconnected =>
        }
      }
    }

    method AddTrackedApp(username: string, procName: string, channel: nat) returns (effects: seq<Effect>)
      modifies this
      ensures (View(), effects) == AddedApp(old(View()), username, procName, channel)
    {
      var found := FindFirst(trackedApps, ProcessName, procName);
      if found.Some? {
        return [];
      }
      trackedApps := trackedApps + [NewTrackLog(username, procName, procName)];
      channelSenders := channelSenders + [ChannelSender(procName, channel)];
      effects := [StartTracking(procName, channel)];
    }

    method SaveData(procName: string, file: SF.File<TrackLog>, fs: SF.FsOutcome) returns (after: SF.File<TrackLog>)
      ensures after == SavedData(trackedApps, procName, file, fs)
    {
      var found := FindFirst(trackedApps, ProcessName, procName);
      match found {
        case Some(i) =>
          var result;
          result, after := Tracking.SaveToFile(trackedApps[i], file, fs);
        case None =>
          after := file;
      }
    }

    method DeleteTrackedApp(procName: string, file: SF.File<TrackLog>, fs: SF.FsOutcome)
      returns (after: SF.File<TrackLog>, effects: seq<Effect>)
      modifies this
      ensures (View(), after, effects) == DeletedApp(old(View()), procName, file, fs)
    {
      effects := [];
      var sender := FindFirst(channelSenders, SenderName, procName);
      if sender.Some? {
        effects := [SendTerminate(channelSenders[sender.value].channel)];
      }
      after := file;
      var found := FindFirst(trackedApps, ProcessName, procName);
      if found.Some? {
        var i := found.value;
        var (result, deleted) := DeleteFromFile(trackedApps[i], file, fs);
        after := deleted;
        if result.Ok? {
          trackedApps := trackedApps[..i] + trackedApps[i + 1..];
        }
      }
    }

    method AddBadgeToProc(badge: Badge, procName: string)
      requires FindApp(trackedApps, procName).Some?
      modifies this
      ensures View() == old(View()).(trackedApps := WithBadge(old(trackedApps), procName, badge))
    {
      var found := FindFirst(trackedApps, ProcessName, procName);
      var i := found.value;
      var isAdded := HasRank(trackedApps[i].badges, badge.rank);
      if !isAdded {
        trackedApps := trackedApps[i := trackedApps[i].(badges := trackedApps[i].badges + [badge])];
      }
    }

    method UpdateAppTime(procName: string, secs: nat)
      modifies this
      ensures View() == old(View()).(trackedApps := WithUptime(old(trackedApps), procName, secs))
    {
      var found := FindFirst(trackedApps, ProcessName, procName);
      if found.Some? {
        trackedApps := trackedApps[found.value := trackedApps[found.value].SetUptime(secs)];
      }
    }

    method ChangeTrackedAppName(procName: string, newDisplayName: string)
      modifies this
      ensures View() == old(View()).(trackedApps := WithDisplayName(old(trackedApps), procName, newDisplayName))
    {
      var found := FindFirst(trackedApps, ProcessName, procName);
      if found.Some? {
        trackedApps := trackedApps[found.value := trackedApps[found.value].SetDisplayName(newDisplayName)];
      }
    }

    /**
     * `PauseTracking`, with the sender loop written as intended; the loop as written is
     * `PauseSendersAsWritten`.
     */
    method PauseTracking(procName: string)
      modifies this
      ensures View() == old(View()).(channelSenders := PausedSenders(old(channelSenders), procName),
                                     trackedApps := PausedApps(old(trackedApps), procName))
    {
      RemoveSendersOf(procName);
      MarkNotRunning(procName);
    }

    /** The first loop of `PauseTracking`: remove a matching sender without advancing the index. */
    method RemoveSendersOf(procName: string)
      modifies this
      ensures View() == old(View()).(channelSenders := PausedSenders(old(channelSenders), procName))
    {
      var keep := OtherSender(procName);
      var senders := channelSenders;
      var ind := 0;
      while ind < |senders|
        invariant 0 <= ind <= |senders|
        invariant unchanged(this)
        invariant Seqs.Filter(senders, keep) == Seqs.Filter(old(channelSenders), keep)
        invariant forall j :: 0 <= j < ind ==> senders[j].procName != procName
        decreases |senders| - ind
      {
        if senders[ind].procName == procName {
          Seqs.FilterRemoveDropped(senders, ind, keep);
          var rest := senders[..ind] + senders[ind + 1..];
          assert forall j :: 0 <= j < ind ==> rest[j] == senders[j];
          senders := rest;
        } else {
          ind := ind + 1;
        }
      }
      assert forall j :: 0 <= j < |senders| ==> keep(senders[j]);
      Seqs.FilterKeepsAll(senders, keep);
      channelSenders := senders;
    }

    /** The second loop of `PauseTracking`: every record of that name is marked not running. */
    method MarkNotRunning(procName: string)
      modifies this
      ensures View() == old(View()).(trackedApps := PausedApps(old(trackedApps), procName))
    {
      var ind := 0;
      while ind < |trackedApps|
        invariant 0 <= ind <= |trackedApps| == |old(trackedApps)|
        invariant forall j :: 0 <= j < ind ==> trackedApps[j] == PausedOne(old(trackedApps)[j], procName)
        invariant forall j :: ind <= j < |trackedApps| ==> trackedApps[j] == old(trackedApps)[j]
        invariant View() == old(View()).(trackedApps := trackedApps)
      {
        if trackedApps[ind].processName == procName {
          trackedApps := trackedApps[ind := trackedApps[ind].(isRunning := false)];
        }
        ind := ind + 1;
      }
      assert trackedApps == PausedApps(old(trackedApps), procName);
    }

    method ResumeTracking(procName: string, channel: nat) returns (effects: seq<Effect>)
      modifies this
      ensures (View(), effects) == Resumed(old(View()), procName, channel)
    {
      var found := FindFirst(trackedApps, ProcessName, procName);
      effects := [];
      if found.Some? {
        var i := found.value;
        trackedApps := trackedApps[i := trackedApps[i].(isRunning := true)];
        channelSenders := channelSenders + [ChannelSender(procName, channel)];
        effects := [StartTracking(procName, channel)];
      }
    }

    method SaveAllData(file: SF.File<TrackLog>, fss: nat -> SF.FsOutcome) returns (after: SF.File<TrackLog>)
      ensures after == SavedAll(trackedApps, file, fss)
    {
      if |trackedApps| == 0 {
        return file;
      }
      after := file;
      var i := 0;
      while i < |trackedApps|
        invariant 0 <= i <= |trackedApps|
        invariant after == SavedAll(trackedApps[..i], file, fss)
      {
        assert trackedApps[..i + 1][..i] == trackedApps[..i];
        var result;
        result, after := Tracking.SaveToFile(trackedApps[i], after, fss(i));
        i := i + 1;
      }
      assert trackedApps[..|trackedApps|] == trackedApps;
    }

    method QueryUntrackedApps(runningProcs: Option<seq<ProcessInfo>>)
      modifies this
      ensures View() == old(View()).(untrackedApps := runningProcs.GetOr([]))
    {
      untrackedApps := runningProcs.GetOr([]);
    }

    method CleanErrorMsg()
      modifies this
      ensures View() == old(View()).(error := None)
    {
      error := None;
    }

    /** `reducer`. */
    method Reduce(action: Action, file: SF.File<TrackLog>, env: Env) returns (after: SF.File<TrackLog>, effects: seq<Effect>)
      requires Enabled(View(), action)
      modifies this
      ensures (View(), after, effects) == Step(old(View()), file, action, env)
    {
      after, effects := file, [];
      ghost var v0 := View();
      ghost var expected := Step(v0, file, action, env);
      match action {
        case NoAction =>
          assert (View(), after, effects) == expected;
        case FetchTrackedApps =>
          effects := FetchTrackedApps(env.trackedReply);
          assert (View(), after, effects) == expected;
        case FetchUntrackedApps =>
          effects := FetchUntrackedApps(env.untrackedReply);
          assert (View(), after, effects) == expected;
        case AddTrackedApp(username, name) =>
          effects := AddTrackedApp(username, name, env.newChannel);
          assert (View(), after, effects) == expected;
        case UpdateAppTime(name, secs) =>
          UpdateAppTime(name, secs);
          assert (View(), after, effects) == expected;
        case DeleteTrackedApp(name) =>
          after, effects := DeleteTrackedApp(name, file, env.fs);
          assert (View(), after, effects) == expected;
        case SaveData(name) =>
          after := SaveData(name, file, env.fs);
          assert (View(), after, effects) == expected;
        case CleanErrorMsg =>
          CleanErrorMsg();
          assert (View(), after, effects) == expected;
        case SaveAllData =>
          after := SaveAllData(file, env.saveAllFs);
          assert (View(), after, effects) == expected;
        case ChangeTrackedAppName(name, newName) =>
          ChangeTrackedAppName(name, newName);
          assert (View(), after, effects) == expected;
        case QueryUntrackedApps =>
          QueryUntrackedApps(env.runningProcs);
          assert (View(), after, effects) == expected;
        case PauseTracking(name) =>
          PauseTracking(name);
          assert (View(), after, effects) == expected;
        case ResumeTracking(name) =>
          effects := ResumeTracking(name, env.newChannel);
          assert (View(), after, effects) == expected;
        case AddBadgeToProc(badge, name) =>
          AddBadgeToProc(badge, name);
          assert (View(), after, effects) == expected;
      }
    }
  }
}
