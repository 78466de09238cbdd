/**
 * The first apps store of the frontend (frontend/src/store/apps_store.rs): lists fetched by background
 * threads in two phases. The first `Fetch…` spawns the fetch and installs a receiver; each later one polls
 * the receiver. The threads are effects; what a poll receives is an input.
 */
module FrontendAppsStore {
  import LT = LegacyTracking
  import WinProcess
  import AppsStore

  type TrackLog = LT.TrackLog
  type ProcessInfo = WinProcess.ProcessInfo
  type TryRecv<T> = AppsStore.TryRecv<T>

  /** `Actions` of this store. */
  datatype Action = NoAction | FetchTrackedApps | FetchUntrackedApps | AddTrackedApp(username: string, procName: string)
    | DeleteTrackedApp

  /** What a reduction starts outside the store. */
  datatype Effect = SpawnTrackedFetch | SpawnUntrackedFetch | StartTracking(procName: string, username: string)

  /** The fields of `AppState`; a receiver is recorded by whether it is installed. */
  datatype FrontView = FrontView(
    trackedApps: seq<TrackLog>,
    untrackedApps: seq<ProcessInfo>,
    isFetchingTracked: bool,
    isFetchingUntracked: bool,
    isErrorUntracked: bool,
    isErrorTracked: bool,
    hasTrackedRx: bool,
    hasUntrackedRx: bool)

  /** `AppState::default()`. */
  function DefaultView(): FrontView {
    FrontView([], [], false, false, false, false, false, false)
  }

  /**
   * The state and effects of one reduction; `trackedReply` and `untrackedReply` are what a poll of the
   * corresponding receiver would return.
   */
  function FrontStep(v: FrontView, action: Action, trackedReply: TryRecv<seq<TrackLog>>,
                     untrackedReply: TryRecv<seq<ProcessInfo>>): (FrontView, seq<Effect>)
  {
    match action
    case FetchTrackedApps =>
      if !v.isFetchingTracked then (v.(hasTrackedRx := true, isFetchingTracked := true), [SpawnTrackedFetch])
      else if v.hasTrackedRx && trackedReply.Received? then
        (v.(trackedApps := trackedReply.data, isFetchingTracked := false), [])
      else (v, [])
    case FetchUntrackedApps =>
      if !v.isFetchingUntracked then (v.(hasUntrackedRx := true, isFetchingUntracked := true), [SpawnUntrackedFetch])
      else if v.hasUntrackedRx && untrackedReply.Received? then
        (v.(untrackedApps := untrackedReply.data, isFetchingUntracked := false), [])
      else (v, [])
    case AddTrackedApp(username, procName) => (v, [StartTracking(procName, username)])
    case DeleteTrackedApp => (v, [])
    case NoAction => (v, [])
  }

  /** `AppState` of the frontend. */
  class AppState {
    var trackedApps: seq<TrackLog>
    var untrackedApps: seq<ProcessInfo>
    var isFetchingTracked: bool
    var isFetchingUntracked: bool
    var isErrorUntracked: bool
    var isErrorTracked: bool
    var hasTrackedRx: bool
    var hasUntrackedRx: bool

    function View(): FrontView
      reads this
    {
      FrontView(trackedApps, untrackedApps, isFetchingTracked, isFetchingUntracked, isErrorUntracked, isErrorTracked,
                hasTrackedRx, hasUntrackedRx)
    }

    constructor()
      ensures View() == DefaultView()
    {
      trackedApps, untrackedApps := [], [];
      isFetchingTracked, isFetchingUntracked, isErrorUntracked, isErrorTracked := false, false, false, false;
      hasTrackedRx, hasUntrackedRx := false, false;
    }

    /** `fetch_tracked_apps`: spawn the fetch, install its receiver and mark the fetch running. */
    method FetchTrackedAppsStart() returns (effect: Effect)
      modifies this
      ensures View() == old(View()).(hasTrackedRx := true, isFetchingTracked := true)
      ensures effect == SpawnTrackedFetch
    {
      effect := SpawnTrackedFetch;
      hasTrackedRx := true;
      isFetchingTracked := true;
    }

    /** `fetch_untracked_apps`: spawn the enumeration, install its receiver and mark the fetch running. */
    method FetchUntrackedAppsStart() returns (effect: Effect)
      modifies this
      ensures View() == old(View()).(hasUntrackedRx := true, isFetchingUntracked := true)
      ensures effect == SpawnUntrackedFetch
    {
      effect := SpawnUntrackedFetch;
      hasUntrackedRx := true;
      isFetchingUntracked := true;
    }

    /** `reducer`. */
    method Reduce(action: Action, trackedReply: TryRecv<seq<TrackLog>>, untrackedReply: TryRecv<seq<ProcessInfo>>)
      returns (effects: seq<Effect>)
      modifies this
      ensures (View(), effects) == FrontStep(old(View()), action, trackedReply, untrackedReply)
    {
      effects := [];
      match action {
        case FetchTrackedApps =>
          if !isFetchingTracked {
            var e := FetchTrackedAppsStart();
            effects := [e];
          } else if hasTrackedRx {
            match trackedReply {
              case Received(data) =>
                trackedApps := data;
                isFetchingTracked := false;
              case _ =>
            }
          }
        case FetchUntrackedApps =>
          if !isFetchingUntracked {
            var e := FetchUntrackedAppsStart();
            effects := [e];
          } else if hasUntrackedRx {
            match untrackedReply {
              case Received(data) =>
                untrackedApps := data;
                isFetchingUntracked := false;
              case _ =>
            }
          }
        case AddTrackedApp(username, procName) =>
          effects := [StartTracking(procName, username)];
        case DeleteTrackedApp =>
        case NoAction =>
      }
    }
  }

  // ----- Properties -----

  /**
   * The two phases of a fetch of the tracked list: from idle it only starts the fetch; while fetching, a
   * received list replaces the tracked list and ends the fetch; a receive error changes nothing, so the
   * store stays fetching.
   */
  lemma FetchTrackedProtocol(v: FrontView, reply: TryRecv<seq<TrackLog>>, other: TryRecv<seq<ProcessInfo>>)
    ensures var (w, effects) := FrontStep(v, FetchTrackedApps, reply, other);
      && (!v.isFetchingTracked ==>
            w == v.(isFetchingTracked := true, hasTrackedRx := true) && effects == [SpawnTrackedFetch])
      && (v.isFetchingTracked && v.hasTrackedRx && reply.Received? ==>
            w == v.(trackedApps := reply.data, isFetchingTracked := false) && effects == [])
      && (v.isFetchingTracked && !reply.Received? ==> w == v && effects == [])
  {
  }

  /** The same two phases for the list of running processes. */
  lemma FetchUntrackedProtocol(v: FrontView, other: TryRecv<seq<TrackLog>>, reply: TryRecv<seq<ProcessInfo>>)
    ensures var (w, effects) := FrontStep(v, FetchUntrackedApps, other, reply);
      && (!v.isFetchingUntracked ==>
            w == v.(isFetchingUntracked := true, hasUntrackedRx := true) && effects == [SpawnUntrackedFetch])
      && (v.isFetchingUntracked && v.hasUntrackedRx && reply.Received? ==>
            w == v.(untrackedApps := reply.data, isFetchingUntracked := false) && effects == [])
      && (v.isFetchingUntracked && !reply.Received? ==> w == v && effects == [])
  {
  }

  /** Adding, deleting and the empty action leave every field as it is; only adding starts a tracker. */
  lemma OtherActionsKeepState(v: FrontView, action: Action, t: TryRecv<seq<TrackLog>>, u: TryRecv<seq<ProcessInfo>>)
    requires action.AddTrackedApp? || action.DeleteTrackedApp? || action.NoAction?
    ensures FrontStep(v, action, t, u).0 == v
    ensures FrontStep(v, action, t, u).1 == if action.AddTrackedApp? then [StartTracking(action.procName, action.username)] else []
  {
  }

  /**
   * A full fetch from the initial state: the first `FetchTrackedApps` starts the fetch and the second,
   * once the list has arrived, installs it and leaves the store idle again.
   */
  lemma FetchTrackedRoundTrip(data: seq<TrackLog>, t0: TryRecv<seq<TrackLog>>, u: TryRecv<seq<ProcessInfo>>)
    ensures var v1 := FrontStep(DefaultView(), FetchTrackedApps, t0, u).0;
      var v2 := FrontStep(v1, FetchTrackedApps, AppsStore.Received(data), u).0;
      v2.trackedApps == data && !v2.isFetchingTracked && v2.hasTrackedRx
  {
  }
}
