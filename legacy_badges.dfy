/**
 * The first badge rules (tracker/src/tracking/badges.rs): the count matched is whole MINUTES although
 * the local is called `elapsed_hours`, the ladder stops at 100, and ranks are strings.
 */
module LegacyBadges {
  import opened Wrappers

  datatype Badge = Badge(rank: string, username: string, description: string)

  /** `get_badge`: `elapsed_secs / 60` matched exactly against six rungs; an empty rank string means none. */
  function GetBadge(elapsedSecs: nat, username: string): (r: Option<Badge>)
    ensures r.Some? ==> r.value.username == username && r.value.rank != ""
  {
    var elapsedHours := elapsedSecs / 60;
    var (rank, description) :=
      match elapsedHours
      case 0 => ("Ground Zero", "App just been added")
      case 1 => ("Skin deep", "You've been using app for an hour")
      case 2 => ("Hooked", "You've been using app for two hours")
      case 10 => ("Into It", "You've been using app for ten hours")
      case 50 => ("Advanced user", "You've been using app for an fifty hours")
      case 100 => ("Pro", "You've been using app for one hundren hours")
      case _ => ("", "");
    if rank != "" then Some(Badge(rank, username, description)) else None
  }

  /** A badge is produced exactly when the whole minutes land on one of the six rungs. */
  lemma GetBadgeOnlyOnRungs(elapsedSecs: nat, username: string)
    ensures GetBadge(elapsedSecs, username).Some? <==> elapsedSecs / 60 in {0, 1, 2, 10, 50, 100}
  {
  }

  /** The divisor is 60: one hour of use (3600 s) is minute 60, which is not a rung. */
  lemma OneHourIsNotARung(username: string)
    ensures GetBadge(60, username).Some? && GetBadge(60, username).value.rank == "Skin deep"
    ensures GetBadge(3600, username).None?
    ensures GetBadge(500 * 60, username).None?
  {
  }

  /** Different rungs give different, non-empty rank strings. */
  lemma RanksDistinct(secs1: nat, secs2: nat, username: string)
    requires GetBadge(secs1, username).Some? && GetBadge(secs2, username).Some?
    requires secs1 / 60 != secs2 / 60
    ensures GetBadge(secs1, username).value.rank != GetBadge(secs2, username).value.rank
  {
    GetBadgeOnlyOnRungs(secs1, username);
    GetBadgeOnlyOnRungs(secs2, username);
  }
}
