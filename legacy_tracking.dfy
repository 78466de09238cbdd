/**
 * The second generation of `TrackLog` (tracker/src/tracking/mod.rs): records without a running flag, their
 * persistence in the same stats file, and the loop of the tracker thread that watches one process by
 * holding on to the process it found at start-up.
 */
module LegacyTracking {
  import opened Wrappers
  import LB = LegacyBadges
  import Seqs
  import SF = StatsFile
  import Tracking
  import AppsStore
  import WinProcess

  type ProcessInfo = WinProcess.ProcessInfo
  type Action = AppsStore.Action

  /** One tracked application; `uptime` is in seconds. */
  datatype TrackLog = TrackLog(
    username: string,
    uptime: nat,
    badges: seq<LB.Badge>,
    processName: string,
    displayName: string)
  {
    /** `add_uptime`: adds to the uptime and touches nothing else. */
    function AddUptime(seconds: nat): (r: TrackLog)
      ensures r.uptime == uptime + seconds
      ensures r.(uptime := uptime) == this
    {
      this.(uptime := uptime + seconds)
    }

    /** `set_uptime`: replaces the uptime and touches nothing else. */
    function SetUptime(seconds: nat): (r: TrackLog)
      ensures r.uptime == seconds
      ensures r.(uptime := uptime) == this
    {
      this.(uptime := seconds)
    }

    /** `set_display_name`: replaces the display name and touches nothing else. */
    function SetDisplayName(newName: string): (r: TrackLog)
      ensures r.displayName == newName
      ensures r.(displayName := displayName) == this
    {
      this.(displayName := newName)
    }
  }

  /** `TrackLog::new`: no time and no badges. */
  function NewTrackLog(username: string, procName: string, displayName: string): (r: TrackLog)
    ensures r.uptime == 0 && r.badges == []
    ensures r.username == username && r.processName == procName && r.displayName == displayName
  {
    TrackLog(username, 0, [], procName, displayName)
  }

  /** The identity key of a record. */
  function ProcessName(log: TrackLog): string {
    log.processName
  }

  /** The owner of a record. */
  function Username(log: TrackLog): string {
    log.username
  }

  /** What `save_to_file` does to the stored record that matches: uptime, display name and badges come from `self`. */
  function Overwrite(stored: TrackLog, self: TrackLog): (r: TrackLog)
    ensures r.processName == stored.processName && r.username == stored.username
  {
    stored.SetUptime(self.uptime).SetDisplayName(self.displayName).(badges := self.badges)
  }

  /** `get_stats_from_file`: a missing or unparsable file is an error, a blank one is the empty list. */
  function GetStatsFromFile(file: SF.File<TrackLog>): (r: Result<seq<TrackLog>, SF.IoError>)
    ensures r.Err? <==> file.Absent? || file.Corrupt?
    ensures file.Absent? ==> r == Err(SF.NotFound)
    ensures file.Corrupt? ==> r == Err(SF.Malformed)
    ensures file.Blank? ==> r == Ok([])
    ensures file.Stored? ==> r == Ok(file.records)
  {
    SF.Load(file)
  }

  /** `get_tracked_procs_by_user`: the stored records of one user, in file order. */
  function GetTrackedProcsByUser(file: SF.File<TrackLog>, username: string): (r: Result<seq<TrackLog>, SF.IoError>)
    ensures r.Err? <==> GetStatsFromFile(file).Err?
    ensures r.Ok? ==> forall x :: x in r.value <==> x in GetStatsFromFile(file).value && x.username == username
  {
    SF.RecordsOfMembership(file, Username, username);
    SF.RecordsOf(file, Username, username)
  }

  /** `TrackLog::save_to_file`, on the stats file as it is before the call. */
  method SaveToFile(self: TrackLog, file: SF.File<TrackLog>, fs: SF.FsOutcome)
    returns (result: Result<(), SF.IoError>, after: SF.File<TrackLog>)
    ensures (result, after) == SF.Saved(file, self, ProcessName, Overwrite, fs)
  {
    result, after := SF.SaveToFile(file, self, ProcessName, Overwrite, fs);
  }

  /**
   * `TrackLog::delete_from_file`: it succeeds exactly when the file loads and the write succeeds; a failure
   * leaves the file as it was, and a success leaves no record with this process name.
   */
  function DeleteFromFile(self: TrackLog, file: SF.File<TrackLog>, fs: SF.FsOutcome): (r: (Result<(), SF.IoError>, SF.File<TrackLog>))
    ensures r.0.Ok? <==> GetStatsFromFile(file).Ok? && fs.writeOk
    ensures r.0.Err? ==> r.1 == file
    ensures r.0.Ok? ==> r.1.Stored? && forall i :: 0 <= i < |r.1.records| ==> r.1.records[i].processName != self.processName
  {
    SF.Deleted(file, ProcessName, self.processName, fs)
  }

  // ----- Properties of the record and its file -----

  lemma OverwriteKeepsKey()
    ensures forall a, b :: ProcessName(Overwrite(a, b)) == ProcessName(a)
  {
  }

  /**
   * Saving over a stored record with the same process name rewrites only the first such record's uptime,
   * display name and badges; its username, every other record and the length are unchanged.
   */
  lemma SaveOverwritesFirstMatch(self: TrackLog, prev: seq<TrackLog>, fs: SF.FsOutcome, i: nat)
    requires fs.writeOk
    requires i < |prev| && prev[i].processName == self.processName
    requires forall j :: 0 <= j < i ==> prev[j].processName != self.processName
    ensures var (r, after) := SF.Saved(SF.Stored(prev), self, ProcessName, Overwrite, fs);
      && r.Ok? && after.Stored? && |after.records| == |prev|
      && after.records[i] == prev[i].(uptime := self.uptime, displayName := self.displayName, badges := self.badges)
      && forall j :: 0 <= j < |prev| && j != i ==> after.records[j] == prev[j]
  {
    SF.MergeOverwritesFirstMatch(prev, self, ProcessName, Overwrite, i);
  }

  /** With no stored record of that name, or no loadable file at all, `self` is appended as it is. */
  lemma SaveAppendsNewRecord(self: TrackLog, file: SF.File<TrackLog>, fs: SF.FsOutcome)
    requires fs.writeOk
    requires forall x :: x in GetStatsFromFile(file).GetOr([]) ==> x.processName != self.processName
    ensures SF.Saved(file, self, ProcessName, Overwrite, fs) == (Ok(()), SF.Stored(GetStatsFromFile(file).GetOr([]) + [self]))
  {
    var prev := GetStatsFromFile(file).GetOr([]);
    assert forall j :: 0 <= j < |prev| ==> prev[j] in prev;
    SF.MergeAppendsWhenAbsent(prev, self, ProcessName, Overwrite);
  }

  /** Round trip: after a successful save the first record loaded under the name carries the saved fields. */
  lemma SaveThenLoad(self: TrackLog, file: SF.File<TrackLog>, fs: SF.FsOutcome)
    requires fs.writeOk
    ensures var after := SF.Saved(file, self, ProcessName, Overwrite, fs).1;
      && GetStatsFromFile(after).Ok?
      && var m := GetStatsFromFile(after).value;
      && SF.FirstIndexOf(m, ProcessName, self.processName).Some?
      && var i := SF.FirstIndexOf(m, ProcessName, self.processName).value;
      && m[i].uptime == self.uptime && m[i].displayName == self.displayName && m[i].badges == self.badges
  {
    OverwriteKeepsKey();
    SF.SaveThenLoad(file, self, ProcessName, Overwrite, fs);
  }

  /** After a successful delete no record of that name is left, and every other record is kept. */
  lemma DeleteThenLoad(self: TrackLog, file: SF.File<TrackLog>, fs: SF.FsOutcome)
    ensures var (r, after) := DeleteFromFile(self, file, fs);
      && (GetStatsFromFile(file).Err? ==> r.Err? && after == file)
      && (GetStatsFromFile(file).Ok? && fs.writeOk ==>
            r.Ok? && GetStatsFromFile(after).Ok?
            && (forall x :: x in GetStatsFromFile(after).value <==>
                  x in GetStatsFromFile(file).value && x.processName != self.processName))
  {
    SF.DeleteRemovesEveryMatch(file, ProcessName, self.processName, fs);
  }

  // ----- The tracker thread of `get_tracker_thread_for_proc` -----

  /** The name of an enumerated process. */
  function ProcName(p: ProcessInfo): string {
    p.name
  }

  /** `procs.into_iter().find(|p| p.name() == proc_name)`: the first enumerated process with that name. */
  function FindProc(procs: seq<ProcessInfo>, procName: string): (r: Option<ProcessInfo>)
    ensures r.Some? <==> exists p :: p in procs && p.name == procName
    ensures r.Some? ==> r.value.name == procName && r.value in procs
  {
    match SF.FirstIndexOf(procs, ProcName, procName)
    case None =>
      assert forall p :: p in procs ==> p.name != procName by {
        forall p | p in procs ensures p.name != procName {
          var j :| 0 <= j < |procs| && procs[j] == p;
        }
      }
      None
    case Some(i) => Some(procs[i])
  }

  /**
   * The start of the thread: the total is the uptime of the first in-memory record of that name; failing
   * that, the age the OS reports for the process found (its `get_time().unwrap()` panics on an error,
   * which is `None` here); failing that, 0.
   */
  function StartTotal(procName: string, tracked: seq<Tracking.TrackLog>, target: Option<ProcessInfo>,
                      targetAge: Result<nat, WinProcess.OsError>): (r: Option<nat>)
    ensures AppsStore.FindApp(tracked, procName).Some? ==>
      r == Some(tracked[AppsStore.FindApp(tracked, procName).value].uptime)
    ensures AppsStore.FindApp(tracked, procName).None? && target.Some? ==>
      (r.Some? <==> targetAge.Ok?) && (targetAge.Ok? ==> r == Some(targetAge.value))
    ensures AppsStore.FindApp(tracked, procName).None? && target.None? ==> r == Some(0)
  {
    match AppsStore.FindApp(tracked, procName)
    case Some(i) => Some(tracked[i].uptime)
    case None =>
      if target.Some? then (if targetAge.Ok? then Some(targetAge.value) else None)
      else Some(0)
  }

  /** The loop variables: seconds elapsed, the total published, and the process the thread holds on to. */
  datatype LoopVars = LoopVars(elapsed: nat, totalTime: nat, target: Option<ProcessInfo>)

  /**
   * What one iteration observes: the cancellation channel, what `is_active` answers for the process held,
   * and the processes that a re-enumeration in this iteration would find.
   */
  datatype LoopInput = LoopInput(signal: AppsStore.TryRecv<string>, active: Result<bool, WinProcess.OsError>,
                                 procs: seq<ProcessInfo>)

  /** The re-enumeration period: `SaveData` and a fresh lookup of the process when `elapsed % 60 == 0`. */
  const SavePeriodSecs: nat := 60
  /** The thread sleeps this many seconds per iteration and adds them to both counters. */
  const IntervalSecs: nat := 5

  /**
   * One iteration: a message or a closed channel stops the loop, and so does having no process to watch;
   * otherwise an active process (an `is_active` error counts as inactive) gets `UpdateAppTime(total)`,
   * every 60 s the data is saved and the process looked up again, and both counters advance by 5 s.
   */
  function LoopTick(procName: string, v: LoopVars, input: LoopInput): (LoopVars, seq<Action>, bool) {
    if !input.signal.Empty? || v.target.None? then (v, [], true)
    else
      var update := if input.active.GetOr(false) then [AppsStore.UpdateAppTime(procName, v.totalTime)] else [];
      var save := v.elapsed % SavePeriodSecs == 0;
      var target := if save then FindProc(input.procs, procName) else v.target;
      (LoopVars(v.elapsed + IntervalSecs, v.totalTime + IntervalSecs, target),
       update + (if save then [AppsStore.SaveData(procName)] else []), false)
  }

  /** The loop over a sequence of iterations, up to the one that stops it. */
  function LoopRun(procName: string, start: LoopVars, inputs: seq<LoopInput>): (LoopVars, seq<Action>, bool) {
    if |inputs| == 0 then (start, [], false)
    else
      var (v, acts, stopped) := LoopRun(procName, start, inputs[..|inputs| - 1]);
      if stopped then (v, acts, true)
      else
        var (w, more, stop) := LoopTick(procName, v, inputs[|inputs| - 1]);
        (w, acts + more, stop)
  }

  /** The body of the loop of `get_tracker_thread_for_proc`, on its local variables. */
  method LoopIteration(procName: string, vars: LoopVars, input: LoopInput)
    returns (next: LoopVars, dispatched: seq<Action>, stop: bool)
    ensures (next, dispatched, stop) == LoopTick(procName, vars, input)
  {
    var elapsed, totalTime, target := vars.elapsed, vars.totalTime, vars.target;
    if !input.signal.Empty? {
      return vars, [], true;
    }
    if target.Some? {
      dispatched := [];
      if input.active.GetOr(false) {
        dispatched := dispatched + [AppsStore.UpdateAppTime(procName, totalTime)];
      }
      assert dispatched == if input.active.GetOr(false) then [AppsStore.UpdateAppTime(procName, totalTime)] else [];
      if elapsed % SavePeriodSecs == 0 {
        dispatched := dispatched + [AppsStore.SaveData(procName)];
        target := FindProc(input.procs, procName);
      }
      assert dispatched == (if input.active.GetOr(false) then [AppsStore.UpdateAppTime(procName, totalTime)] else [])
        + (if elapsed % SavePeriodSecs == 0 then [AppsStore.SaveData(procName)] else []);
    } else {
      return vars, [], true;
    }
    next, stop := LoopVars(elapsed + IntervalSecs, totalTime + IntervalSecs, target), false;
  }

  /** The loop of `get_tracker_thread_for_proc` over the iterations it is given. */
  method RunLoop(procName: string, start: LoopVars, inputs: seq<LoopInput>)
    returns (vars: LoopVars, dispatched: seq<Action>, consumed: nat, stopped: bool)
    ensures consumed <= |inputs| && (stopped || consumed == |inputs|)
    ensures (vars, dispatched, stopped) == LoopRun(procName, start, inputs[..consumed])
  {
    vars, dispatched, consumed, stopped := start, [], 0, false;
    while consumed < |inputs| && !stopped
      invariant consumed <= |inputs|
      invariant (vars, dispatched, stopped) == LoopRun(procName, start, inputs[..consumed])
    {
      assert inputs[..consumed + 1][..consumed] == inputs[..consumed];
      var acts;
      vars, acts, stopped := LoopIteration(procName, vars, inputs[consumed]);
      dispatched := dispatched + acts;
      consumed := consumed + 1;
    }
  }

  // ----- Properties of the tracker thread -----

  /** A message, a closed channel or a lost process stops the loop with nothing dispatched. */
  lemma TickStops(procName: string, v: LoopVars, input: LoopInput)
    ensures LoopTick(procName, v, input).2 <==> !input.signal.Empty? || v.target.None?
    ensures LoopTick(procName, v, input).2 ==> LoopTick(procName, v, input).1 == []
  {
  }

  /**
   * An active process has its total published first; an inactive one (or an `is_active` error) gets no
   * update but the loop goes on; the save comes exactly every 60 s.
   */
  lemma TickWhileTargetHeld(procName: string, v: LoopVars, input: LoopInput)
    requires input.signal.Empty? && v.target.Some?
    ensures var (w, acts, stop) := LoopTick(procName, v, input);
      && !stop && w.elapsed == v.elapsed + 5 && w.totalTime == v.totalTime + 5
      && (AppsStore.UpdateAppTime(procName, v.totalTime) in acts <==> input.active == Ok(true))
      && (input.active == Ok(true) ==> acts[0] == AppsStore.UpdateAppTime(procName, v.totalTime))
      && (AppsStore.SaveData(procName) in acts <==> v.elapsed % 60 == 0)
      && (v.elapsed % 60 == 0 ==> w.target == FindProc(input.procs, procName))
      && (v.elapsed % 60 != 0 ==> w.target == v.target)
  {
  }

  /** Over any run the total grows exactly as fast as the elapsed time. */
  lemma {:induction false} RunKeepsOffset(procName: string, start: LoopVars, inputs: seq<LoopInput>)
    ensures var v := LoopRun(procName, start, inputs).0;
      v.totalTime - v.elapsed == start.totalTime - start.elapsed
  {
    if |inputs| > 0 {
      RunKeepsOffset(procName, start, inputs[..|inputs| - 1]);
    }
  }

  /**
   * A process that is gone at the first re-enumeration ends the thread: after the first iteration (at
   * elapsed 0), the next one stops whatever it observes.
   */
  lemma LostProcessStopsAfterLookup(procName: string, start: LoopVars, first: LoopInput, second: LoopInput)
    requires start.elapsed == 0 && start.target.Some? && first.signal.Empty?
    requires forall p :: p in first.procs ==> p.name != procName
    ensures LoopRun(procName, start, [first, second]).2
    ensures !LoopRun(procName, start, [first]).2
  {
    assert [first, second][..1] == [first];
    assert [first][..0] == [];
    var afterFirst := LoopTick(procName, start, first);
    assert [] + afterFirst.1 == afterFirst.1;
    assert LoopRun(procName, start, [first]) == afterFirst;
    assert afterFirst.0.target == None;
  }
}
