/**
 * The first generation of `TrackLog` (tracker/src/tracking.rs): records with open and close timestamps
 * instead of badges, their first-match merge into the stats file, and the never-ending loop that sets the
 * uptime to the age the OS reports and saves it on every active iteration.
 */
module OldestTracking {
  import opened Wrappers
  import SF = StatsFile
  import WinProcess

  type ProcessInfo = WinProcess.ProcessInfo

  /** A `SystemTime`, as a count of some fixed unit since a fixed origin; its representation is left out. */
  type Timestamp = nat

  /** Every record remembers the path of the file it belongs to. */
  const StatsPath: string := "./stats.json"

  /** One tracked application; `uptime` is in seconds. */
  datatype TrackLog = TrackLog(
    username: string,
    uptime: nat,
    lastClosed: Timestamp,
    lastOpened: Timestamp,
    processName: string,
    path: string)
  {
    /** `set_process_name`: replaces the process name and touches nothing else. */
    function SetProcessName(newName: string): (r: TrackLog)
      ensures r.processName == newName
      ensures r.(processName := processName) == this
    {
      this.(processName := newName)
    }

    /** `add_uptime`: adds to the uptime and touches nothing else. */
    function AddUptime(seconds: nat): (r: TrackLog)
      ensures r.uptime == uptime + seconds
      ensures r.(uptime := uptime) == this
    {
      this.(uptime := uptime + seconds)
    }

    /** `set_uptime`: replaces the uptime and touches nothing else. */
    function SetUptime(seconds: nat): (r: TrackLog)
      ensures r.uptime == seconds
      ensures r.(uptime := uptime) == this
    {
      this.(uptime := seconds)
    }

    /** `set_last_opened`: replaces the opening time and touches nothing else. */
    function SetLastOpened(timestamp: Timestamp): (r: TrackLog)
      ensures r.lastOpened == timestamp
      ensures r.(lastOpened := lastOpened) == this
    {
      this.(lastOpened := timestamp)
    }

    /** `set_last_closed`: replaces the closing time and touches nothing else. */
    function SetLastClosed(timestamp: Timestamp): (r: TrackLog)
      ensures r.lastClosed == timestamp
      ensures r.(lastClosed := lastClosed) == this
    {
      this.(lastClosed := timestamp)
    }
  }

  /**
   * `TrackLog::new`: no time, both timestamps taken from the clock (two separate readings, `closedAt`
   * and `openedAt`), and the stats file's path.
   */
  function NewTrackLog(username: string, procName: string, closedAt: Timestamp, openedAt: Timestamp): (r: TrackLog)
    ensures r.uptime == 0 && r.path == StatsPath
    ensures r.username == username && r.processName == procName
    ensures r.lastClosed == closedAt && r.lastOpened == openedAt
  {
    TrackLog(username, 0, closedAt, openedAt, procName, StatsPath)
  }

  /** The identity key of a record. */
  function ProcessName(log: TrackLog): string {
    log.processName
  }

  /**
   * What `save_to_file` does to the stored record that matches: uptime and both timestamps come from
   * `self`; username, process name and path stay.
   */
  function Overwrite(stored: TrackLog, self: TrackLog): (r: TrackLog)
    ensures r.processName == stored.processName && r.username == stored.username && r.path == stored.path
  {
    stored.SetUptime(self.uptime).SetLastClosed(self.lastClosed).SetLastOpened(self.lastOpened)
  }

  /** `get_stats_from_file`: blank content is an empty list. */
  function GetStatsFromFile(file: SF.File<TrackLog>): (r: Result<seq<TrackLog>, SF.IoError>)
    ensures file.Blank? ==> r == Ok([])
  {
    SF.Load(file)
  }

  /** `TrackLog::save_to_file`, on the stats file as it is before the call. */
  method SaveToFile(self: TrackLog, file: SF.File<TrackLog>, fs: SF.FsOutcome)
    returns (result: Result<(), SF.IoError>, after: SF.File<TrackLog>)
    ensures (result, after) == SF.Saved(file, self, ProcessName, Overwrite, fs)
  {
    result, after := SF.SaveToFile(file, self, ProcessName, Overwrite, fs);
  }

  // ----- Properties of the record and its file -----

  lemma OverwriteKeepsKey()
    ensures forall a, b :: ProcessName(Overwrite(a, b)) == ProcessName(a)
  {
  }

  /**
   * Saving over a stored record with the same process name rewrites only the first such record's uptime
   * and timestamps; its username, process name and path, every other record and the length are unchanged.
   */
  lemma SaveOverwritesFirstMatch(self: TrackLog, prev: seq<TrackLog>, fs: SF.FsOutcome, i: nat)
    requires fs.writeOk
    requires i < |prev| && prev[i].processName == self.processName
    requires forall j :: 0 <= j < i ==> prev[j].processName != self.processName
    ensures var (r, after) := SF.Saved(SF.Stored(prev), self, ProcessName, Overwrite, fs);
      && r.Ok? && after.Stored? && |after.records| == |prev|
      && after.records[i] == prev[i].(uptime := self.uptime, lastClosed := self.lastClosed, lastOpened := self.lastOpened)
      && forall j :: 0 <= j < |prev| && j != i ==> after.records[j] == prev[j]
  {
    SF.MergeOverwritesFirstMatch(prev, self, ProcessName, Overwrite, i);
  }

  /** With no stored record of that name, or no loadable file at all, `self` is appended as it is. */
  lemma SaveAppendsNewRecord(self: TrackLog, file: SF.File<TrackLog>, fs: SF.FsOutcome)
    requires fs.writeOk
    requires forall x :: x in GetStatsFromFile(file).GetOr([]) ==> x.processName != self.processName
    ensures SF.Saved(file, self, ProcessName, Overwrite, fs) == (Ok(()), SF.Stored(GetStatsFromFile(file).GetOr([]) + [self]))
  {
    var prev := GetStatsFromFile(file).GetOr([]);
    assert forall j :: 0 <= j < |prev| ==> prev[j] in prev;
    SF.MergeAppendsWhenAbsent(prev, self, ProcessName, Overwrite);
  }

  // ----- The tracker thread of `get_tracker_thread_for_proc` -----

  /**
   * What one iteration observes: the running processes, and for the process of that name the answer of
   * `is_active` and the age in seconds that `get_time` reports; and what the file system does with the save.
   */
  datatype LoopInput = LoopInput(procs: seq<ProcessInfo>, active: Result<bool, WinProcess.OsError>, ageSecs: nat,
                                 fs: SF.FsOutcome)

  /** The target is running and `is_active` answers `true` (an error counts as inactive). */
  predicate ActiveTick(log: TrackLog, input: LoopInput) {
    (exists p :: p in input.procs && p.name == log.processName) && input.active.GetOr(false)
  }

  /**
   * One iteration: when the process is there and active, the uptime is set to its age and the record saved
   * (a failed save is only reported); otherwise nothing changes.
   */
  function LoopTick(log: TrackLog, file: SF.File<TrackLog>, input: LoopInput): (TrackLog, SF.File<TrackLog>) {
    if ActiveTick(log, input) then
      var updated := log.SetUptime(input.ageSecs);
      (updated, SF.Saved(file, updated, ProcessName, Overwrite, input.fs).1)
    else (log, file)
  }

  /** The loop over a sequence of iterations; it has no exit. */
  function LoopRun(log: TrackLog, file: SF.File<TrackLog>, inputs: seq<LoopInput>): (TrackLog, SF.File<TrackLog>) {
    if |inputs| == 0 then (log, file)
    else
      var (l, f) := LoopRun(log, file, inputs[..|inputs| - 1]);
      LoopTick(l, f, inputs[|inputs| - 1])
  }

  /**
   * The thread of `get_tracker_thread_for_proc`: a new record opened at `openedAt`, then the loop over
   * the iterations it is given, each of which it runs.
   */
  method RunTracker(username: string, procName: string, createdAt: Timestamp, openedAt: Timestamp,
                    file: SF.File<TrackLog>, inputs: seq<LoopInput>)
    returns (log: TrackLog, after: SF.File<TrackLog>)
    ensures (log, after) == LoopRun(NewTrackLog(username, procName, createdAt, createdAt).SetLastOpened(openedAt), file, inputs)
  {
    log := NewTrackLog(username, procName, createdAt, createdAt);
    log := log.SetLastOpened(openedAt);
    ghost var start := log;
    after := file;
    var i := 0;
    while i < |inputs|
      invariant i <= |inputs|
      invariant (log, after) == LoopRun(start, file, inputs[..i])
    {
      assert inputs[..i + 1][..i] == inputs[..i];
      var input := inputs[i];
      var running := exists p :: p in input.procs && p.name == log.processName;
      if running {
        if input.active.GetOr(false) {
          log := log.SetUptime(input.ageSecs);
          var _, saved := SaveToFile(log, after, input.fs);
          after := saved;
        }
      }
      i := i + 1;
    }
    assert inputs[..|inputs|] == inputs;
  }

  // ----- Properties of the tracker thread -----

  /** An active iteration sets the uptime to the reported age, whatever it was before: it is not added. */
  lemma TickSetsAbsoluteUptime(log: TrackLog, file: SF.File<TrackLog>, input: LoopInput)
    requires ActiveTick(log, input)
    ensures LoopTick(log, file, input).0 == log.(uptime := input.ageSecs)
  {
  }

  /** After an active iteration whose write succeeds, the file's first record of that name has that age. */
  lemma TickSavesAge(log: TrackLog, file: SF.File<TrackLog>, input: LoopInput)
    requires ActiveTick(log, input) && input.fs.writeOk
    ensures var after := LoopTick(log, file, input).1;
      && GetStatsFromFile(after).Ok?
      && var m := GetStatsFromFile(after).value;
      && SF.FirstIndexOf(m, ProcessName, log.processName).Some?
      && m[SF.FirstIndexOf(m, ProcessName, log.processName).value].uptime == input.ageSecs
  {
    OverwriteKeepsKey();
    SF.SaveThenLoad(file, log.SetUptime(input.ageSecs), ProcessName, Overwrite, input.fs);
  }

  /** Only the uptime of the in-memory record ever changes, so it keeps its name and its path. */
  lemma {:induction false} RunKeepsIdentity(log: TrackLog, file: SF.File<TrackLog>, inputs: seq<LoopInput>)
    ensures LoopRun(log, file, inputs).0 == log.(uptime := LoopRun(log, file, inputs).0.uptime)
  {
    if |inputs| > 0 {
      RunKeepsIdentity(log, file, inputs[..|inputs| - 1]);
    }
  }

  /** An iteration in which the process is absent or inactive changes nothing, on disk or in memory. */
  lemma IdleTickChangesNothing(log: TrackLog, file: SF.File<TrackLog>, input: LoopInput)
    requires !ActiveTick(log, input)
    ensures LoopTick(log, file, input) == (log, file)
  {
  }
}
