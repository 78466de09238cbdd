/**
 * The two background loops of the tracking engine (tracker_core/src/tracking/mod.rs): the per-process tracker
 * thread and the supervisor thread. Each loop iteration is a step from the loop variables and what the
 * iteration observes (a snapshot of the store, the cancellation channel, the user name) to the actions it
 * dispatches; sleeping and locking are left out.
 */
module TrackerThreads {
  import opened Wrappers
  import opened Badges
  import opened Tracking
  import AppsStore
  import WinProcess
  import SF = StatsFile

  type ProcessInfo = WinProcess.ProcessInfo
  type Action = AppsStore.Action

  /** The tracker sleeps this many seconds per iteration and adds them to both counters. */
  const IntervalSecs: nat := 5
  /** `SaveData` is dispatched when `elapsed % 120 == 0`. */
  const SavePeriodSecs: nat := 120
  /** The badge check runs when `elapsed % 300 == 0`. */
  const BadgePeriodSecs: nat := 300
  /** `len() as u16` keeps the count modulo 2^16. */
  const U16Modulus: nat := 0x1_0000

  /** `as u16`. */
  function AsU16(n: nat): (r: nat)
    ensures r < U16Modulus
    ensures n < U16Modulus ==> r == n
  {
    n % U16Modulus
  }

  /** `check_is_proc_running`: some running process has that name. */
  predicate IsProcRunning(untracked: seq<ProcessInfo>, procName: string) {
    exists p :: p in untracked && p.name == procName
  }

  // ----- The tracker thread -----

  /** The loop variables of `start_tracker_thread_for_proc`. */
  datatype TrackerVars = TrackerVars(elapsed: nat, totalTime: nat, prevProcNum: nat, isRunning: bool)

  /** What one iteration observes: the running processes, the cancellation channel and the user name. */
  datatype TickInput = TickInput(untracked: seq<ProcessInfo>, signal: AppsStore.TryRecv<string>, username: string)

  /**
   * The set-up before the loop: the count of running processes, the uptime of the first stored record of
   * that name (0 if none), and whether the process is running.
   */
  function TrackerStart(procName: string, untracked: seq<ProcessInfo>, tracked: seq<TrackLog>): (r: TrackerVars)
    ensures r.elapsed == 0
    ensures AppsStore.FindApp(tracked, procName).Some? ==>
      r.totalTime == tracked[AppsStore.FindApp(tracked, procName).value].uptime
    ensures AppsStore.FindApp(tracked, procName).None? ==> r.totalTime == 0
    ensures r.isRunning <==> IsProcRunning(untracked, procName)
  {
    var stored := AppsStore.FindApp(tracked, procName);
    TrackerVars(0, if stored.Some? then tracked[stored.value].uptime else 0, AsU16(|untracked|),
                IsProcRunning(untracked, procName))
  }

  /** An action of the tracker thread: publishing, saving, pausing or awarding a badge, for `procName`. */
  predicate AboutProcess(a: Action, procName: string) {
    (a.UpdateAppTime? || a.SaveData? || a.PauseTracking? || a.AddBadgeToProc?) && a.procName == procName
  }

  /** The actions of the periodic part of a tick in which the process is running. */
  function PeriodicActions(procName: string, v: TrackerVars, username: string): seq<Action> {
    [AppsStore.UpdateAppTime(procName, v.totalTime)]
    + (if v.elapsed % SavePeriodSecs == 0 then [AppsStore.SaveData(procName)] else [])
    + (if v.elapsed % BadgePeriodSecs == 0 && GetBadge(v.totalTime, username).Some?
       then [AppsStore.AddBadgeToProc(GetBadge(v.totalTime, username).value, procName)] else [])
  }

  /**
   * The top of each iteration: liveness is re-checked, and the count remembered, only when the truncated
   * process count differs from the remembered one.
   */
  function Refreshed(procName: string, v: TrackerVars, untracked: seq<ProcessInfo>): (w: TrackerVars)
    ensures w.elapsed == v.elapsed && w.totalTime == v.totalTime
    ensures w.prevProcNum == AsU16(|untracked|)
    ensures v.prevProcNum == AsU16(|untracked|) ==> w.isRunning == v.isRunning
    ensures v.prevProcNum != AsU16(|untracked|) ==> (w.isRunning <==> IsProcRunning(untracked, procName))
  {
    var procNum := AsU16(|untracked|);
    if v.prevProcNum != procNum then v.(isRunning := IsProcRunning(untracked, procName), prevProcNum := procNum)
    else v
  }

  /**
   * One iteration of the tracker loop: re-check liveness only when the process count changed, stop on a
   * cancellation message or a closed channel, otherwise publish the time (or pause, save and stop when the
   * process is gone), save every 120 s, check badges every 300 s, and advance both counters by 5 s.
   * The result is the new variables, the dispatched actions, and whether the loop stops: it stops exactly
   * on a cancellation or a process found gone, without advancing the counters; otherwise both counters
   * advance by 5 s and the total is published first.
   */
  function Tick(procName: string, v: TrackerVars, input: TickInput): (r: (TrackerVars, seq<Action>, bool))
    ensures r.2 <==> !input.signal.Empty? || !r.0.isRunning
    ensures r.2 ==> r.0.elapsed == v.elapsed && r.0.totalTime == v.totalTime
    ensures !r.2 ==>
      && r.0.elapsed == v.elapsed + IntervalSecs && r.0.totalTime == v.totalTime + IntervalSecs
      && |r.1| > 0 && r.1[0] == AppsStore.UpdateAppTime(procName, v.totalTime)
  {
    var w := Refreshed(procName, v, input.untracked);
    if !input.signal.Empty? then (w, [], true)
    else if !w.isRunning then (w, [AppsStore.PauseTracking(procName), AppsStore.SaveData(procName)], true)
    else (w.(elapsed := w.elapsed + IntervalSecs, totalTime := w.totalTime + IntervalSecs),
          PeriodicActions(procName, w, input.username), false)
  }

  /** The loop run over a sequence of observations, up to the iteration that stops it. */
  function Run(procName: string, start: TrackerVars, inputs: seq<TickInput>): (TrackerVars, seq<Action>, bool) {
    if |inputs| == 0 then (start, [], false)
    else
      var (v, acts, stopped) := Run(procName, start, inputs[..|inputs| - 1]);
      if stopped then (v, acts, true)
      else
        var (w, more, stop) := Tick(procName, v, inputs[|inputs| - 1]);
        (w, acts + more, stop)
  }

  /**
   * The periodic part of the loop body while the process runs: publish the total, save every 120 s and
   * check the badge every 300 s.
   */
  method PeriodicDispatch(procName: string, vars: TrackerVars, username: string) returns (dispatched: seq<Action>)
    ensures dispatched == PeriodicActions(procName, vars, username)
  {
    dispatched := [AppsStore.UpdateAppTime(procName, vars.totalTime)];
    if vars.elapsed % SavePeriodSecs == 0 {
      dispatched := dispatched + [AppsStore.SaveData(procName)];
    }
    if vars.elapsed % BadgePeriodSecs == 0 {
      var badge := GetBadge(vars.totalTime, username);
      if badge.Some? {
        dispatched := dispatched + [AppsStore.AddBadgeToProc(badge.value, procName)];
      }
    }
  }

  /** The body of the loop of `start_tracker_thread_for_proc`, on its local variables. */
  method TrackerIteration(procName: string, vars: TrackerVars, input: TickInput)
    returns (next: TrackerVars, dispatched: seq<Action>, stop: bool)
    ensures (next, dispatched, stop) == Tick(procName, vars, input)
  {
    var elapsed, totalTime, prevProcNum, isRunning := vars.elapsed, vars.totalTime, vars.prevProcNum, vars.isRunning;
    var procNum := AsU16(|input.untracked|);
    if prevProcNum != procNum {
      isRunning := IsProcRunning(input.untracked, procName);
      prevProcNum := procNum;
    }
    next := TrackerVars(elapsed, totalTime, prevProcNum, isRunning);
    assert next == Refreshed(procName, vars, input.untracked);
    if !input.signal.Empty? {
      return next, [], true;
    }
    if !isRunning {
      return next, [AppsStore.PauseTracking(procName), AppsStore.SaveData(procName)], true;
    }
    dispatched := PeriodicDispatch(procName, next, input.username);
    next, stop := TrackerVars(elapsed + IntervalSecs, totalTime + IntervalSecs, prevProcNum, isRunning), false;
  }

  /**
   * The loop of `start_tracker_thread_for_proc` over the observations it is given; it ends when the loop
   * breaks or the observations run out.
   */
  method RunTracker(procName: string, start: TrackerVars, inputs: seq<TickInput>)
    returns (vars: TrackerVars, dispatched: seq<Action>, consumed: nat, stopped: bool)
    ensures consumed <= |inputs| && (stopped || consumed == |inputs|)
    ensures (vars, dispatched, stopped) == Run(procName, start, inputs[..consumed])
  {
    vars, dispatched, consumed, stopped := start, [], 0, false;
    while consumed < |inputs| && !stopped
      invariant consumed <= |inputs|
      invariant (vars, dispatched, stopped) == Run(procName, start, inputs[..consumed])
    {
      assert inputs[..consumed + 1][..consumed] == inputs[..consumed];
      var acts;
      vars, acts, stopped := TrackerIteration(procName, vars, inputs[consumed]);
      dispatched := dispatched + acts;
      consumed := consumed + 1;
    }
  }

  // ----- Properties of the tracker thread -----

  /** A cancellation message or a closed channel stops the loop before anything is dispatched. */
  lemma TickStopsOnSignal(procName: string, v: TrackerVars, input: TickInput)
    requires !input.signal.Empty?
    ensures var (w, acts, stop) := Tick(procName, v, input);
      stop && acts == [] && w.elapsed == v.elapsed && w.totalTime == v.totalTime
  {
  }

  /** A process found not running is paused, then saved, and the loop stops. */
  lemma TickPausesWhenGone(procName: string, v: TrackerVars, input: TickInput)
    requires input.signal.Empty?
    requires !Tick(procName, v, input).0.isRunning
    ensures Tick(procName, v, input).1 == [AppsStore.PauseTracking(procName), AppsStore.SaveData(procName)]
    ensures Tick(procName, v, input).2
  {
  }

  /** Liveness is re-evaluated only when the (truncated) process count changed. */
  lemma TickKeepsLivenessWithoutCountChange(procName: string, v: TrackerVars, input: TickInput)
    requires AsU16(|input.untracked|) == v.prevProcNum
    ensures Tick(procName, v, input).0.isRunning == v.isRunning
    ensures Tick(procName, v, input).0.prevProcNum == v.prevProcNum
  {
  }

  /** Every action a tick dispatches is about its own process. */
  lemma TickOnlyAboutProcess(procName: string, v: TrackerVars, input: TickInput)
    ensures var acts := Tick(procName, v, input).1;
      forall i :: 0 <= i < |acts| ==> AboutProcess(acts[i], procName)
  {
  }

  /**
   * A running tick publishes the current total first, saves exactly when `elapsed % 120 == 0`, and asks for
   * a badge exactly when `elapsed % 300 == 0` and the total is on a rung.
   */
  lemma TickWhileRunning(procName: string, v: TrackerVars, input: TickInput)
    requires input.signal.Empty? && Tick(procName, v, input).0.isRunning
    ensures var (w, acts, stop) := Tick(procName, v, input);
      && !stop && |acts| >= 1 && acts[0] == AppsStore.UpdateAppTime(procName, v.totalTime)
      && w.elapsed == v.elapsed + 5 && w.totalTime == v.totalTime + 5
      && (AppsStore.SaveData(procName) in acts <==> v.elapsed % 120 == 0)
      && ((exists b :: AppsStore.AddBadgeToProc(b, procName) in acts) <==>
            v.elapsed % 300 == 0 && GetBadge(v.totalTime, input.username).Some?)
  {
    var (w, acts, stop) := Tick(procName, v, input);
    if v.elapsed % 300 == 0 && GetBadge(v.totalTime, input.username).Some? {
      assert acts[|acts| - 1] == AppsStore.AddBadgeToProc(GetBadge(v.totalTime, input.username).value, procName);
    }
  }

  /**
   * Over any run, the time added to the total equals the time elapsed: `total_time - elapsed` is the same
   * as at the start, so a tracker started at elapsed 0 publishes `start uptime + elapsed`.
   */
  lemma {:induction false} RunKeepsOffset(procName: string, start: TrackerVars, inputs: seq<TickInput>)
    ensures var v := Run(procName, start, inputs).0;
      v.totalTime - v.elapsed == start.totalTime - start.elapsed
  {
    if |inputs| > 0 {
      RunKeepsOffset(procName, start, inputs[..|inputs| - 1]);
    }
  }

  /** Once stopped, further observations change nothing. */
  lemma {:induction false} RunStaysStopped(procName: string, start: TrackerVars, inputs: seq<TickInput>, more: seq<TickInput>)
    requires Run(procName, start, inputs).2
    ensures Run(procName, start, inputs + more) == Run(procName, start, inputs)
    decreases |more|
  {
    if |more| > 0 {
      var shorter := inputs + more[..|more| - 1];
      assert (inputs + more)[..|inputs + more| - 1] == shorter;
      RunStaysStopped(procName, start, inputs, more[..|more| - 1]);
    } else {
      assert inputs + more == inputs;
    }
  }

  /** The first tick of a new tracker on a running process saves and checks badges (elapsed is 0). */
  lemma FirstTickSavesAndChecksBadge(procName: string, untracked: seq<ProcessInfo>, tracked: seq<TrackLog>, input: TickInput)
    requires input.signal.Empty? && input.untracked == untracked && IsProcRunning(untracked, procName)
    ensures var start := TrackerStart(procName, untracked, tracked);
      var acts := Tick(procName, start, input).1;
      AppsStore.SaveData(procName) in acts
      && (GetBadge(start.totalTime, input.username).Some? ==>
            AppsStore.AddBadgeToProc(GetBadge(start.totalTime, input.username).value, procName) in acts)
  {
    var start := TrackerStart(procName, untracked, tracked);
    TickWhileRunning(procName, start, input);
    var acts := Tick(procName, start, input).1;
    if GetBadge(start.totalTime, input.username).Some? {
      assert acts[|acts| - 1] == AppsStore.AddBadgeToProc(GetBadge(start.totalTime, input.username).value, procName);
    }
  }

  // ----- The supervisor thread -----

  /**
   * The for-each of `start_supervisor_thread`: a `ResumeTracking` for every tracked record, in order, that
   * is not running and whose process name appears among the running processes.
   */
  function RestartedApps(tracked: seq<TrackLog>, untracked: seq<ProcessInfo>): seq<Action> {
    if |tracked| == 0 then []
    else
      var l := tracked[0];
      (if !l.isRunning && IsProcRunning(untracked, l.processName) then [AppsStore.ResumeTracking(l.processName)] else [])
      + RestartedApps(tracked[1..], untracked)
  }

  /** Only resumes are produced, and one is produced for a name exactly when a stopped record of it restarted. */
  lemma {:induction false} RestartedAppsExactly(tracked: seq<TrackLog>, untracked: seq<ProcessInfo>, a: Action)
    ensures a in RestartedApps(tracked, untracked) <==>
      a.ResumeTracking? && IsProcRunning(untracked, a.procName)
      && exists l :: l in tracked && !l.isRunning && l.processName == a.procName
  {
    if |tracked| > 0 {
      RestartedAppsExactly(tracked[1..], untracked, a);
      assert tracked == [tracked[0]] + tracked[1..];
    }
  }

  /**
   * One iteration of the supervisor loop: dispatch `QueryUntrackedApps`, read the process count (as u16),
   * and only when it differs from the previous count resume the restarted records and remember the count.
   * `untracked` and `tracked` are the store's lists after the query.
   */
  function SupervisorTick(prevProcNum: nat, untracked: seq<ProcessInfo>, tracked: seq<TrackLog>): (nat, seq<Action>) {
    var procNum := AsU16(|untracked|);
    if procNum != prevProcNum then (procNum, [AppsStore.QueryUntrackedApps] + RestartedApps(tracked, untracked))
    else (prevProcNum, [AppsStore.QueryUntrackedApps])
  }

  /** With an unchanged count the supervisor only queries, even if a stopped process has restarted. */
  lemma SupervisorIgnoresSameCount(prevProcNum: nat, untracked: seq<ProcessInfo>, tracked: seq<TrackLog>)
    requires AsU16(|untracked|) == prevProcNum
    ensures SupervisorTick(prevProcNum, untracked, tracked) == (prevProcNum, [AppsStore.QueryUntrackedApps])
  {
  }

  /** With a changed count the supervisor resumes exactly the restarted records and records the new count. */
  lemma SupervisorResumesOnCountChange(prevProcNum: nat, untracked: seq<ProcessInfo>, tracked: seq<TrackLog>, name: string)
    requires AsU16(|untracked|) != prevProcNum
    ensures SupervisorTick(prevProcNum, untracked, tracked).0 == AsU16(|untracked|)
    ensures AppsStore.ResumeTracking(name) in SupervisorTick(prevProcNum, untracked, tracked).1 <==>
      IsProcRunning(untracked, name) && exists l :: l in tracked && !l.isRunning && l.processName == name
  {
    RestartedAppsExactly(tracked, untracked, AppsStore.ResumeTracking(name));
  }

  /** The store lists the supervisor reads in one iteration. */
  datatype SupervisorInput = SupervisorInput(untracked: seq<ProcessInfo>, tracked: seq<TrackLog>)

  /** The supervisor loop over a sequence of iterations, from `prev_proc_num = 0`. */
  function SupervisorRun(inputs: seq<SupervisorInput>): (nat, seq<Action>) {
    if |inputs| == 0 then (0, [])
    else
      var (prev, acts) := SupervisorRun(inputs[..|inputs| - 1]);
      var last := inputs[|inputs| - 1];
      var (next, more) := SupervisorTick(prev, last.untracked, last.tracked);
      (next, acts + more)
  }

  /** The inner loop of `start_supervisor_thread`: resume every stopped record whose process runs again. */
  method ResumeRestarted(tracked: seq<TrackLog>, untracked: seq<ProcessInfo>) returns (resumed: seq<Action>)
    ensures resumed == RestartedApps(tracked, untracked)
  {
    resumed := [];
    var k := 0;
    assert tracked[0..] == tracked;
    while k < |tracked|
      invariant k <= |tracked|
      invariant resumed + RestartedApps(tracked[k..], untracked) == RestartedApps(tracked, untracked)
    {
      var l := tracked[k];
      assert tracked[k..][1..] == tracked[k + 1..];
      if !l.isRunning {
        var isRestarted := IsProcRunning(untracked, l.processName);
        if isRestarted {
          resumed := resumed + [AppsStore.ResumeTracking(l.processName)];
        }
      }
      k := k + 1;
    }
    assert tracked[|tracked|..] == [];
  }

  /** The loop of `start_supervisor_thread` over the iterations it is given. */
  method RunSupervisor(inputs: seq<SupervisorInput>) returns (prevProcNum: nat, dispatched: seq<Action>)
    ensures (prevProcNum, dispatched) == SupervisorRun(inputs)
    ensures prevProcNum < U16Modulus
  {
    prevProcNum, dispatched := 0, [];
    var i := 0;
    while i < |inputs|
      invariant i <= |inputs|
      invariant (prevProcNum, dispatched) == SupervisorRun(inputs[..i])
      invariant prevProcNum < U16Modulus
    {
      assert inputs[..i + 1][..i] == inputs[..i];
      var input := inputs[i];
      assert inputs[..i + 1][i] == input;
      ghost var acts := dispatched;
      ghost var step := SupervisorTick(prevProcNum, input.untracked, input.tracked);
      assert SupervisorRun(inputs[..i + 1]) == (step.0, acts + step.1);
      dispatched := dispatched + [AppsStore.QueryUntrackedApps];
      var procNum := AsU16(|input.untracked|);
      if procNum != prevProcNum {
        var resumed := ResumeRestarted(input.tracked, input.untracked);
        dispatched := dispatched + resumed;
        assert dispatched == acts + ([AppsStore.QueryUntrackedApps] + resumed);
        prevProcNum := procNum;
      }
      assert (prevProcNum, dispatched) == (step.0, acts + step.1);
      i := i + 1;
    }
    assert inputs[..|inputs|] == inputs;
  }
}
