/**
 * The newest `TrackLog` (tracker_core/src/tracking/mod.rs): one record per tracked application, its setters,
 * and its persistence in the stats file.
 */
module Tracking {
  import opened Wrappers
  import opened Badges
  import Seqs
  import SF = StatsFile

  /** One tracked application; `uptime` is in seconds. */
  datatype TrackLog = TrackLog(
    username: string,
    uptime: nat,
    badges: seq<Badge>,
    processName: string,
    displayName: string,
    isRunning: bool)
  {
    /** `add_uptime`: adds to the uptime and touches nothing else. */
    function AddUptime(seconds: nat): (r: TrackLog)
      ensures r.uptime == uptime + seconds
      ensures r.(uptime := uptime) == this
    {
      this.(uptime := uptime + seconds)
    }

    /** `set_uptime`: replaces the uptime and touches nothing else. */
    function SetUptime(seconds: nat): (r: TrackLog)
      ensures r.uptime == seconds
      ensures r.(uptime := uptime) == this
    {
      this.(uptime := seconds)
    }

    /** `set_display_name`: replaces the display name and touches nothing else. */
    function SetDisplayName(newName: string): (r: TrackLog)
      ensures r.displayName == newName
      ensures r.(displayName := displayName) == this
    {
      this.(displayName := newName)
    }
  }

  /** `TrackLog::new`: no time, no badges, and the process is assumed to be running. */
  function NewTrackLog(username: string, procName: string, displayName: string): (r: TrackLog)
    ensures r.uptime == 0 && r.badges == [] && r.isRunning
    ensures r.username == username && r.processName == procName && r.displayName == displayName
  {
    TrackLog(username, 0, [], procName, displayName, true)
  }

  /** The identity key of a record. */
  function ProcessName(log: TrackLog): string {
    log.processName
  }

  /** The owner of a record. */
  function Username(log: TrackLog): string {
    log.username
  }

  /**
   * What `save_to_file` does to the stored record that matches: uptime, display name and badges come from
   * the saved log and the stored record is marked not running; its username stays.
   */
  function Overwrite(stored: TrackLog, self: TrackLog): (r: TrackLog)
    ensures r.processName == stored.processName && r.username == stored.username
  {
    stored.SetUptime(self.uptime).SetDisplayName(self.displayName).(badges := self.badges, isRunning := false)
  }

  /** `get_stats_from_file`: a missing or unparsable file is an error, a blank one is the empty list. */
  function GetStatsFromFile(file: SF.File<TrackLog>): (r: Result<seq<TrackLog>, SF.IoError>)
    ensures r.Err? <==> file.Absent? || file.Corrupt?
    ensures file.Absent? ==> r == Err(SF.NotFound)
    ensures file.Corrupt? ==> r == Err(SF.Malformed)
    ensures file.Blank? ==> r == Ok([])
    ensures file.Stored? ==> r == Ok(file.records)
  {
    SF.Load(file)
  }

  /** `get_tracked_procs_by_user`: the stored records of one user, in file order. */
  function GetTrackedProcsByUser(file: SF.File<TrackLog>, username: string): (r: Result<seq<TrackLog>, SF.IoError>)
    ensures r.Err? <==> GetStatsFromFile(file).Err?
    ensures r.Ok? ==> forall x :: x in r.value <==> x in GetStatsFromFile(file).value && x.username == username
  {
    SF.RecordsOfMembership(file, Username, username);
    SF.RecordsOf(file, Username, username)
  }

  /** `TrackLog::save_to_file`, on the stats file as it is before the call. */
  method SaveToFile(self: TrackLog, file: SF.File<TrackLog>, fs: SF.FsOutcome)
    returns (result: Result<(), SF.IoError>, after: SF.File<TrackLog>)
    ensures (result, after) == SF.Saved(file, self, ProcessName, Overwrite, fs)
  {
    result, after := SF.SaveToFile(file, self, ProcessName, Overwrite, fs);
  }

  /**
   * `TrackLog::delete_from_file`: it succeeds exactly when the file loads and the write succeeds; a failure
   * leaves the file as it was, and a success leaves no record with this process name.
   */
  function DeleteFromFile(self: TrackLog, file: SF.File<TrackLog>, fs: SF.FsOutcome): (r: (Result<(), SF.IoError>, SF.File<TrackLog>))
    ensures r.0.Ok? <==> GetStatsFromFile(file).Ok? && fs.writeOk
    ensures r.0.Err? ==> r.1 == file
    ensures r.0.Ok? ==> r.1.Stored? && forall i :: 0 <= i < |r.1.records| ==> r.1.records[i].processName != self.processName
  {
    SF.Deleted(file, ProcessName, self.processName, fs)
  }

  // ----- Properties -----

  lemma OverwriteKeepsKey()
    ensures forall a, b :: ProcessName(Overwrite(a, b)) == ProcessName(a)
  {
  }

  /**
   * Saving over a stored record with the same process name rewrites only the first such record: uptime,
   * display name and badges come from `self`, `is_running` becomes false, the username stays, and every
   * other record and the length are unchanged.
   */
  lemma SaveOverwritesFirstMatch(self: TrackLog, prev: seq<TrackLog>, fs: SF.FsOutcome, i: nat)
    requires fs.writeOk
    requires i < |prev| && prev[i].processName == self.processName
    requires forall j :: 0 <= j < i ==> prev[j].processName != self.processName
    ensures var (r, after) := SF.Saved(SF.Stored(prev), self, ProcessName, Overwrite, fs);
      && r.Ok? && after.Stored? && |after.records| == |prev|
      && after.records[i].uptime == self.uptime
      && after.records[i].displayName == self.displayName
      && after.records[i].badges == self.badges
      && !after.records[i].isRunning
      && after.records[i].username == prev[i].username
      && after.records[i].processName == prev[i].processName
      && forall j :: 0 <= j < |prev| && j != i ==> after.records[j] == prev[j]
  {
    SF.MergeOverwritesFirstMatch(prev, self, ProcessName, Overwrite, i);
  }

  /**
   * With no stored record of that name, or no loadable file at all, `self` is appended as it is,
   * keeping its own `is_running`.
   */
  lemma SaveAppendsNewRecord(self: TrackLog, file: SF.File<TrackLog>, fs: SF.FsOutcome)
    requires fs.writeOk
    requires forall x :: x in GetStatsFromFile(file).GetOr([]) ==> x.processName != self.processName
    ensures var (r, after) := SF.Saved(file, self, ProcessName, Overwrite, fs);
      && r.Ok? && after == SF.Stored(GetStatsFromFile(file).GetOr([]) + [self])
      && after.records[|after.records| - 1].isRunning == self.isRunning
  {
    var prev := GetStatsFromFile(file).GetOr([]);
    assert forall j :: 0 <= j < |prev| ==> prev[j] in prev;
    SF.MergeAppendsWhenAbsent(prev, self, ProcessName, Overwrite);
  }

  /** A file whose records have unique process names keeps them unique after a save. */
  lemma SaveKeepsNamesUnique(self: TrackLog, prev: seq<TrackLog>, fs: SF.FsOutcome)
    requires fs.writeOk
    requires SF.UniqueKeys(prev, ProcessName)
    ensures SF.Saved(SF.Stored(prev), self, ProcessName, Overwrite, fs).1.Stored?
    ensures SF.UniqueKeys(SF.Saved(SF.Stored(prev), self, ProcessName, Overwrite, fs).1.records, ProcessName)
  {
    OverwriteKeepsKey();
    SF.MergeKeepsKeysUnique(prev, self, ProcessName, Overwrite);
  }

  /**
   * Round trip: after a successful save, the first record loaded under the name carries exactly the
   * saved uptime, display name and badges.
   */
  lemma SaveThenLoad(self: TrackLog, file: SF.File<TrackLog>, fs: SF.FsOutcome)
    requires fs.writeOk
    ensures var after := SF.Saved(file, self, ProcessName, Overwrite, fs).1;
      && GetStatsFromFile(after).Ok?
      && var m := GetStatsFromFile(after).value;
      && SF.FirstIndexOf(m, ProcessName, self.processName).Some?
      && var i := SF.FirstIndexOf(m, ProcessName, self.processName).value;
      && m[i].uptime == self.uptime && m[i].displayName == self.displayName && m[i].badges == self.badges
  {
    OverwriteKeepsKey();
    SF.SaveThenLoad(file, self, ProcessName, Overwrite, fs);
  }

  /** After a successful delete no record of that name is left; a load error leaves the file as it was. */
  lemma DeleteThenLoad(self: TrackLog, file: SF.File<TrackLog>, fs: SF.FsOutcome)
    ensures var (r, after) := DeleteFromFile(self, file, fs);
      && (GetStatsFromFile(file).Err? ==> r.Err? && after == file)
      && (GetStatsFromFile(file).Ok? && fs.writeOk ==>
            r.Ok? && GetStatsFromFile(after).Ok?
            && (forall x :: x in GetStatsFromFile(after).value ==> x.processName != self.processName)
            && (forall x :: x in GetStatsFromFile(file).value && x.processName != self.processName
                  ==> x in GetStatsFromFile(after).value))
  {
    SF.DeleteRemovesEveryMatch(file, ProcessName, self.processName, fs);
  }
}
