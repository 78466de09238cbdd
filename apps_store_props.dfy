/** Properties of the application-state reducer (`AppsStore.Step` and the functions it is made of). */
module AppsStoreProps {
  import opened Wrappers
  import opened Badges
  import opened Tracking
  import opened AppsStore
  import Seqs
  import SF = StatsFile

  /** Records with the same process names, position by position, keep unique names unique. */
  lemma SameNamesKeepUnique(before: seq<TrackLog>, after: seq<TrackLog>)
    requires |before| == |after|
    requires forall j :: 0 <= j < |before| ==> after[j].processName == before[j].processName
    requires SF.UniqueKeys(before, ProcessName)
    ensures SF.UniqueKeys(after, ProcessName)
  {
    forall i, j | 0 <= i < j < |after| ensures ProcessName(after[i]) != ProcessName(after[j]) {
      assert ProcessName(before[i]) != ProcessName(before[j]);
    }
  }

  // ----- AddTrackedApp -----

  /**
   * After `AddTrackedApp` the name is tracked. When it was new, exactly one record (no time, no badges,
   * running, display name = process name) and one sender for it were appended.
   */
  lemma AddTrackedAppAppendsOnce(v: AppsView, username: string, procName: string, channel: nat)
    ensures var (w, _) := AddedApp(v, username, procName, channel);
      FindApp(w.trackedApps, procName).Some?
    ensures FindApp(v.trackedApps, procName).Some? ==> AddedApp(v, username, procName, channel) == (v, [])
    ensures FindApp(v.trackedApps, procName).None? ==>
      var (w, effects) := AddedApp(v, username, procName, channel);
      && w.trackedApps[..|v.trackedApps|] == v.trackedApps
      && |w.trackedApps| == |v.trackedApps| + 1
      && var added := w.trackedApps[|v.trackedApps|];
      && added.processName == procName && added.displayName == procName && added.username == username
      && added.uptime == 0 && added.badges == [] && added.isRunning
      && w.channelSenders == v.channelSenders + [ChannelSender(procName, channel)]
      && effects == [StartTracking(procName, channel)]
  {
    var (w, _) := AddedApp(v, username, procName, channel);
    if FindApp(v.trackedApps, procName).None? {
      var i := |v.trackedApps|;
      assert w.trackedApps[i].processName == procName;
      SF.FirstIndexOfIsFirst(w.trackedApps, ProcessName, procName, i);
    }
  }

  /** Adding the same process name twice is the same as adding it once. */
  lemma AddTrackedAppIdempotent(v: AppsView, username1: string, username2: string, procName: string, ch1: nat, ch2: nat)
    ensures var w := AddedApp(v, username1, procName, ch1).0;
      AddedApp(w, username2, procName, ch2) == (w, [])
  {
    AddTrackedAppAppendsOnce(v, username1, procName, ch1);
  }

  /** `AddTrackedApp` keeps process names unique. */
  lemma AddTrackedAppKeepsNamesUnique(v: AppsView, username: string, procName: string, channel: nat)
    requires SF.UniqueKeys(v.trackedApps, ProcessName)
    ensures SF.UniqueKeys(AddedApp(v, username, procName, channel).0.trackedApps, ProcessName)
  {
    var w := AddedApp(v, username, procName, channel).0;
    if FindApp(v.trackedApps, procName).None? {
      forall i, j | 0 <= i < j < |w.trackedApps| ensures ProcessName(w.trackedApps[i]) != ProcessName(w.trackedApps[j]) {
        if j == |v.trackedApps| {
          assert ProcessName(v.trackedApps[i]) != procName;
        }
      }
    }
  }

  // ----- AddBadgeToProc -----

  /** No two badges of a record share a rank. */
  ghost predicate UniqueRanks(badges: seq<Badge>) {
    forall i, j :: 0 <= i < j < |badges| ==> badges[i].rank != badges[j].rank
  }

  /**
   * `AddBadgeToProc` leaves the record with a badge of that rank; it appends the badge exactly when the
   * rank was missing, so ranks stay unique; no other record and no other field changes.
   */
  lemma AddBadgeKeepsRanksUnique(apps: seq<TrackLog>, name: string, badge: Badge)
    requires FindApp(apps, name).Some?
    requires UniqueRanks(apps[FindApp(apps, name).value].badges)
    ensures var i := FindApp(apps, name).value;
      var after := WithBadge(apps, name, badge);
      && |after| == |apps|
      && HasRank(after[i].badges, badge.rank)
      && UniqueRanks(after[i].badges)
      && (HasRank(apps[i].badges, badge.rank) ==> after == apps)
      && (!HasRank(apps[i].badges, badge.rank) ==> after[i] == apps[i].(badges := apps[i].badges + [badge]))
      && forall j :: 0 <= j < |apps| && j != i ==> after[j] == apps[j]
  {
    var i := FindApp(apps, name).value;
    var after := WithBadge(apps, name, badge);
    if !HasRank(apps[i].badges, badge.rank) {
      var bs := after[i].badges;
      assert bs[|bs| - 1] == badge && bs[|bs| - 1] in bs;
      forall k, l | 0 <= k < l < |bs| ensures bs[k].rank != bs[l].rank {
        if l == |bs| - 1 {
          assert bs[k] in apps[i].badges;
        }
      }
    }
  }

  // ----- UpdateAppTime and ChangeTrackedAppName -----

  /**
   * `UpdateAppTime` sets the uptime of the first record of that name to exactly `secs` (it does not add);
   * every other field and record is unchanged, and an unknown name changes nothing.
   */
  lemma UpdateAppTimeSetsExactly(apps: seq<TrackLog>, name: string, secs: nat)
    ensures |WithUptime(apps, name, secs)| == |apps|
    ensures FindApp(apps, name).None? ==> WithUptime(apps, name, secs) == apps
    ensures FindApp(apps, name).Some? ==>
      var i := FindApp(apps, name).value;
      var after := WithUptime(apps, name, secs);
      && after[i].uptime == secs && after[i].(uptime := apps[i].uptime) == apps[i]
      && forall j :: 0 <= j < |apps| && j != i ==> after[j] == apps[j]
  {
  }

  /** Two time updates in a row leave the second value: the update is absolute. */
  lemma UpdateAppTimeLastWins(apps: seq<TrackLog>, name: string, secs1: nat, secs2: nat)
    ensures WithUptime(WithUptime(apps, name, secs1), name, secs2) == WithUptime(apps, name, secs2)
  {
    var once := WithUptime(apps, name, secs1);
    if FindApp(apps, name).Some? {
      var i := FindApp(apps, name).value;
      SF.FirstIndexOfIsFirst(once, ProcessName, name, i);
    }
  }

  /** `ChangeTrackedAppName` changes only the display name of the first record of that name. */
  lemma ChangeNameSetsOnlyDisplayName(apps: seq<TrackLog>, name: string, newName: string)
    ensures |WithDisplayName(apps, name, newName)| == |apps|
    ensures FindApp(apps, name).None? ==> WithDisplayName(apps, name, newName) == apps
    ensures FindApp(apps, name).Some? ==>
      var i := FindApp(apps, name).value;
      var after := WithDisplayName(apps, name, newName);
      && after[i].displayName == newName && after[i].(displayName := apps[i].displayName) == apps[i]
      && forall j :: 0 <= j < |apps| && j != i ==> after[j] == apps[j]
  {
  }

  // ----- PauseTracking and ResumeTracking -----

  /**
   * `PauseTracking` (as intended) marks every record of that name not running and leaves every other record
   * as it was; afterwards no sender of that name is left and the other senders are kept.
   */
  lemma PauseTrackingStopsEveryMatch(v: AppsView, name: string, s: ChannelSender)
    ensures forall j :: 0 <= j < |v.trackedApps| ==>
      var after := PausedApps(v.trackedApps, name)[j];
      (v.trackedApps[j].processName == name ==> !after.isRunning && after.(isRunning := v.trackedApps[j].isRunning) == v.trackedApps[j])
      && (v.trackedApps[j].processName != name ==> after == v.trackedApps[j])
    ensures s in PausedSenders(v.channelSenders, name) <==> s in v.channelSenders && s.procName != name
  {
    Seqs.FilterMembership(v.channelSenders, OtherSender(name), s);
  }

  /** Pausing twice is pausing once. */
  lemma PauseTrackingIdempotent(apps: seq<TrackLog>, senders: seq<ChannelSender>, name: string)
    ensures PausedApps(PausedApps(apps, name), name) == PausedApps(apps, name)
    ensures PausedSenders(PausedSenders(senders, name), name) == PausedSenders(senders, name)
  {
    Seqs.FilterAllKept(senders, OtherSender(name));
    Seqs.FilterKeepsAll(PausedSenders(senders, name), OtherSender(name));
  }

  /**
   * `ResumeTracking` marks the first record of that name running and appends one sender for it even when
   * one exists already; an unknown name changes nothing.
   */
  lemma ResumeTrackingAppendsSender(v: AppsView, name: string, channel: nat)
    ensures FindApp(v.trackedApps, name).None? ==> Resumed(v, name, channel) == (v, [])
    ensures FindApp(v.trackedApps, name).Some? ==>
      var i := FindApp(v.trackedApps, name).value;
      var (w, effects) := Resumed(v, name, channel);
      && |w.trackedApps| == |v.trackedApps|
      && w.trackedApps[i].isRunning && w.trackedApps[i].(isRunning := v.trackedApps[i].isRunning) == v.trackedApps[i]
      && (forall j :: 0 <= j < |v.trackedApps| && j != i ==> w.trackedApps[j] == v.trackedApps[j])
      && w.channelSenders == v.channelSenders + [ChannelSender(name, channel)]
      && effects == [StartTracking(name, channel)]
  {
  }

  // ----- DeleteTrackedApp -----

  /**
   * `DeleteTrackedApp` never removes a sender. When the file deletion succeeds the first record of that
   * name is removed from memory and the file keeps no record of that name; when it fails the records in
   * memory are unchanged.
   */
  lemma DeleteTrackedAppRemovesOnSuccess(v: AppsView, name: string, file: SF.File<TrackLog>, fs: SF.FsOutcome)
    ensures DeletedApp(v, name, file, fs).0.channelSenders == v.channelSenders
    ensures FindApp(v.trackedApps, name).None? ==> DeletedApp(v, name, file, fs).0 == v
    ensures FindApp(v.trackedApps, name).Some? ==>
      var i := FindApp(v.trackedApps, name).value;
      var (w, after, _) := DeletedApp(v, name, file, fs);
      && (SF.Load(file).Ok? && fs.writeOk ==>
            w.trackedApps == RemoveAt(v.trackedApps, i)
            && after.Stored? && forall x :: x in after.records ==> x.processName != name)
      && (SF.Load(file).Err? || !fs.writeOk ==> w == v && after == file)
  {
    if FindApp(v.trackedApps, name).Some? {
      var i := FindApp(v.trackedApps, name).value;
      var (r, after) := DeleteFromFile(v.trackedApps[i], file, fs);
      DeleteThenLoad(v.trackedApps[i], file, fs);
      assert v.trackedApps[i].processName == name;
      assert DeletedApp(v, name, file, fs).0 == if r.Ok? then v.(trackedApps := RemoveAt(v.trackedApps, i)) else v;
      assert DeletedApp(v, name, file, fs).1 == after;
    }
  }

  // ----- SaveAllData -----

  /**
   * A failed save inside `SaveAllData` does not undo the ones before it: every record whose own write
   * succeeded has its process name in the file afterwards, whatever the other writes did. In particular,
   * when every write succeeds, every tracked name is stored.
   */
  lemma {:induction false} SaveAllKeepsEverySavedName(apps: seq<TrackLog>, file: SF.File<TrackLog>, fss: nat -> SF.FsOutcome)
    ensures forall i :: 0 <= i < |apps| && fss(i).writeOk ==>
      && SavedAll(apps, file, fss).Stored?
      && SF.FirstIndexOf(SavedAll(apps, file, fss).records, ProcessName, apps[i].processName).Some?
  {
    if |apps| > 0 {
      var n := |apps| - 1;
      var prefix := apps[..n];
      SaveAllKeepsEverySavedName(prefix, file, fss);
      var before := SavedAll(prefix, file, fss);
      var after := SavedAll(apps, file, fss);
      assert after == SF.Saved(before, apps[n], ProcessName, Overwrite, fss(n)).1;
      OverwriteKeepsKey();
      forall i | 0 <= i < |apps| && fss(i).writeOk
        ensures after.Stored? && SF.FirstIndexOf(after.records, ProcessName, apps[i].processName).Some?
      {
        if i < n {
          assert prefix[i] == apps[i];
        }
        if fss(n).writeOk {
          SF.MergeKeepsKeys(SF.Load(before).GetOr([]), apps[n], ProcessName, Overwrite, apps[i].processName);
        }
      }
    }
  }

  /** When no write of `SaveAllData` succeeds, a file that loaded keeps its records. */
  lemma {:induction false} SaveAllFailedKeepsFile(apps: seq<TrackLog>, file: SF.File<TrackLog>, fss: nat -> SF.FsOutcome)
    requires SF.Load(file).Ok?
    requires forall i :: 0 <= i < |apps| ==> !fss(i).writeOk
    ensures SavedAll(apps, file, fss) == file
  {
    if |apps| > 0 {
      SaveAllFailedKeepsFile(apps[..|apps| - 1], file, fss);
    }
  }

  /** Removing one record keeps process names unique. */
  lemma RemoveAtKeepsNamesUnique(apps: seq<TrackLog>, i: nat)
    requires i < |apps| && SF.UniqueKeys(apps, ProcessName)
    ensures SF.UniqueKeys(RemoveAt(apps, i), ProcessName)
  {
    var r := RemoveAt(apps, i);
    forall k, l | 0 <= k < l < |r| ensures ProcessName(r[k]) != ProcessName(r[l]) {
      var k' := if k < i then k else k + 1;
      var l' := if l < i then l else l + 1;
      assert r[k] == apps[k'] && r[l] == apps[l'] && k' < l';
    }
  }

  // ----- The two fetch protocols -----

  /**
   * A tracked fetch started from idle, followed by a reply: the records become the reply, the fetch ends,
   * and the error flag says whether the reply was empty. A fetch answered by `Empty` ends in error with the
   * records untouched; `Disconnected` leaves the fetch running.
   */
  lemma FetchTrackedProtocol(v: AppsView, first: TryRecv<seq<TrackLog>>, data: seq<TrackLog>)
    requires !v.isFetchingTracked
    ensures var w := FetchedTracked(v, first).0;
      && w.isFetchingTracked && !w.isErrorTracked && w.hasTrackedRx && w.trackedApps == v.trackedApps
      && var x := FetchedTracked(w, Received(data)).0;
      && x.trackedApps == data && !x.isFetchingTracked && (x.isErrorTracked <==> |data| == 0)
      && var y := FetchedTracked(w, Empty).0;
      && y.trackedApps == v.trackedApps && !y.isFetchingTracked && y.isErrorTracked
      && FetchedTracked(w, Disconnected).0 == w
  {
  }

  /** The same protocol for running processes, where an empty reply is not an error. */
  lemma FetchUntrackedProtocol(v: AppsView, first: TryRecv<seq<ProcessInfo>>, data: seq<ProcessInfo>)
    requires !v.isFetchingUntracked
    ensures var w := FetchedUntracked(v, first).0;
      && w.isFetchingUntracked && !w.isErrorUntracked && w.hasUntrackedRx && w.untrackedApps == v.untrackedApps
      && var x := FetchedUntracked(w, Received(data)).0;
      && x.untrackedApps == data && !x.isFetchingUntracked && !x.isErrorUntracked
      && var y := FetchedUntracked(w, Empty).0;
      && y.untrackedApps == v.untrackedApps && !y.isFetchingUntracked && y.isErrorUntracked
      && FetchedUntracked(w, Disconnected).0 == w
  {
  }

  // ----- The reducer as a whole -----

  /**
   * `SaveData`, `SaveAllData`, `QueryUntrackedApps`, `CleanErrorMsg` and `None` never touch the tracked
   * records or the senders; the query installs the enumeration (or nothing on failure) and the clean-up
   * clears the error message.
   */
  lemma ReadOnlyActionsKeepRecords(v: AppsView, file: SF.File<TrackLog>, action: Action, env: Env)
    requires action.SaveData? || action.SaveAllData? || action.QueryUntrackedApps? || action.CleanErrorMsg? || action.NoAction?
    ensures var (w, _, effects) := Step(v, file, action, env);
      && w.trackedApps == v.trackedApps && w.channelSenders == v.channelSenders && effects == []
      && (action.QueryUntrackedApps? ==> w == v.(untrackedApps := if env.runningProcs.Some? then env.runningProcs.value else []))
      && (action.CleanErrorMsg? ==> w == v.(error := None))
      && (action.SaveData? || action.SaveAllData? || action.NoAction? ==> w == v)
  {
  }

  /** Replacing one record by one of the same process name keeps process names unique. */
  lemma UpdateAtKeepsNamesUnique(apps: seq<TrackLog>, i: nat, rec: TrackLog)
    requires i < |apps| && rec.processName == apps[i].processName
    requires SF.UniqueKeys(apps, ProcessName)
    ensures SF.UniqueKeys(apps[i := rec], ProcessName)
  {
    SameNamesKeepUnique(apps, apps[i := rec]);
  }

  /**
   * Process names stay unique under every action, provided a fetched list of records has unique names:
   * the one way records enter the table besides `AddTrackedApp`.
   */
  lemma StepKeepsNamesUnique(v: AppsView, file: SF.File<TrackLog>, action: Action, env: Env)
    requires Enabled(v, action)
    requires SF.UniqueKeys(v.trackedApps, ProcessName)
    requires env.trackedReply.Received? ==> SF.UniqueKeys(env.trackedReply.data, ProcessName)
    ensures SF.UniqueKeys(Step(v, file, action, env).0.trackedApps, ProcessName)
  {
    if action.SaveData? || action.SaveAllData? || action.QueryUntrackedApps? || action.CleanErrorMsg? || action.NoAction? {
      ReadOnlyActionsKeepRecords(v, file, action, env);
    } else if action.UpdateAppTime? || action.ChangeTrackedAppName? || action.AddBadgeToProc? {
      RecordEditsKeepNamesUnique(v, file, action, env);
    } else if action.PauseTracking? || action.ResumeTracking? {
      PauseResumeKeepNamesUnique(v, file, action, env);
    } else {
      ListChangesKeepNamesUnique(v, file, action, env);
    }
  }

  /** Fetching, adding and deleting keep process names unique when a fetched list has unique names. */
  lemma ListChangesKeepNamesUnique(v: AppsView, file: SF.File<TrackLog>, action: Action, env: Env)
    requires action.AddTrackedApp? || action.DeleteTrackedApp? || action.FetchTrackedApps? || action.FetchUntrackedApps?
    requires SF.UniqueKeys(v.trackedApps, ProcessName)
    requires env.trackedReply.Received? ==> SF.UniqueKeys(env.trackedReply.data, ProcessName)
    ensures SF.UniqueKeys(Step(v, file, action, env).0.trackedApps, ProcessName)
  {
    match action {
      case AddTrackedApp(username, name) =>
        AddTrackedAppKeepsNamesUnique(v, username, name, env.newChannel);
      case DeleteTrackedApp(name) =>
        if FindApp(v.trackedApps, name).Some? {
          RemoveAtKeepsNamesUnique(v.trackedApps, FindApp(v.trackedApps, name).value);
        }
      case FetchTrackedApps =>
      case FetchUntrackedApps =>
    }
  }

  /** Setting uptime, display name or badges keeps every name, hence keeps the names unique. */
  lemma RecordEditsKeepNamesUnique(v: AppsView, file: SF.File<TrackLog>, action: Action, env: Env)
    requires Enabled(v, action)
    requires action.UpdateAppTime? || action.ChangeTrackedAppName? || action.AddBadgeToProc?
    requires SF.UniqueKeys(v.trackedApps, ProcessName)
    ensures SF.UniqueKeys(Step(v, file, action, env).0.trackedApps, ProcessName)
  {
    match action {
      case UpdateAppTime(name, secs) =>
        WithUptimeKeepsNamesUnique(v.trackedApps, name, secs);
      case ChangeTrackedAppName(name, newName) =>
        WithDisplayNameKeepsNamesUnique(v.trackedApps, name, newName);
      case AddBadgeToProc(badge, name) =>
        WithBadgeKeepsNamesUnique(v.trackedApps, name, badge);
    }
  }

  /** Pausing and resuming only flip the running flag, so the names stay unique. */
  lemma PauseResumeKeepNamesUnique(v: AppsView, file: SF.File<TrackLog>, action: Action, env: Env)
    requires action.PauseTracking? || action.ResumeTracking?
    requires SF.UniqueKeys(v.trackedApps, ProcessName)
    ensures SF.UniqueKeys(Step(v, file, action, env).0.trackedApps, ProcessName)
  {
    match action {
      case PauseTracking(name) =>
        SameNamesKeepUnique(v.trackedApps, PausedApps(v.trackedApps, name));
      case ResumeTracking(name) =>
        ResumedKeepsNamesUnique(v, name, env.newChannel);
    }
  }

  lemma WithUptimeKeepsNamesUnique(apps: seq<TrackLog>, name: string, secs: nat)
    requires SF.UniqueKeys(apps, ProcessName)
    ensures SF.UniqueKeys(WithUptime(apps, name, secs), ProcessName)
  {
    if FindApp(apps, name).Some? {
      var i := FindApp(apps, name).value;
      UpdateAtKeepsNamesUnique(apps, i, apps[i].SetUptime(secs));
    }
  }

  lemma WithDisplayNameKeepsNamesUnique(apps: seq<TrackLog>, name: string, newName: string)
    requires SF.UniqueKeys(apps, ProcessName)
    ensures SF.UniqueKeys(WithDisplayName(apps, name, newName), ProcessName)
  {
    if FindApp(apps, name).Some? {
      var i := FindApp(apps, name).value;
      UpdateAtKeepsNamesUnique(apps, i, apps[i].SetDisplayName(newName));
    }
  }

  lemma ResumedKeepsNamesUnique(v: AppsView, name: string, channel: nat)
    requires SF.UniqueKeys(v.trackedApps, ProcessName)
    ensures SF.UniqueKeys(Resumed(v, name, channel).0.trackedApps, ProcessName)
  {
    if FindApp(v.trackedApps, name).Some? {
      var i := FindApp(v.trackedApps, name).value;
      UpdateAtKeepsNamesUnique(v.trackedApps, i, v.trackedApps[i].(isRunning := true));
    }
  }

  lemma WithBadgeKeepsNamesUnique(apps: seq<TrackLog>, name: string, badge: Badge)
    requires FindApp(apps, name).Some?
    requires SF.UniqueKeys(apps, ProcessName)
    ensures SF.UniqueKeys(WithBadge(apps, name, badge), ProcessName)
  {
    var i := FindApp(apps, name).value;
    if !HasRank(apps[i].badges, badge.rank) {
      UpdateAtKeepsNamesUnique(apps, i, apps[i].(badges := apps[i].badges + [badge]));
    }
  }
}
