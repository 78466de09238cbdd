/** Milestone badges of the tracking engine: an exact match of whole elapsed hours against a fixed ladder. */
module Badges {
  import opened Wrappers

  /** The ranks of the ladder, in ladder order. */
  datatype BadgeRank = Initial | Common | Rare | Experienced | Advanced | Pro | Insane | Lunatic | TouchGrass | Master

  datatype Badge = Badge(rank: BadgeRank, username: string, description: string)

  const SecondsPerHour: nat := 3600

  /**
   * `get_badge`: whole hours are `elapsed_secs / 3600`; a badge is produced only when that count equals
   * a rung exactly.
   */
  function GetBadge(elapsedSecs: nat, username: string): (r: Option<Badge>)
    ensures r.Some? ==> r.value.username == username && r.value.description != ""
  {
    var rank := RankForHours(elapsedSecs / SecondsPerHour);
    if rank.Some? then Some(Badge(rank.value, username, Description(rank.value))) else None
  }

  /** The rank of the `get_badge` match arm for a whole-hour count, if that count is a rung. */
  function RankForHours(elapsedHours: nat): Option<BadgeRank> {
    match elapsedHours
    case 0 => Some(Initial)
    case 1 => Some(Common)
    case 2 => Some(Rare)
    case 10 => Some(Experienced)
    case 50 => Some(Advanced)
    case 100 => Some(Pro)
    case 500 => Some(Insane)
    case 1000 => Some(Lunatic)
    case 3000 => Some(TouchGrass)
    case 10000 => Some(Master)
    case _ => None
  }

  /** The opening shared by every description after the first. */
  const UsagePrefix: string := "You've been using app for "

  /** The fixed description each match arm of `get_badge` writes for its rank. */
  function Description(rank: BadgeRank): (d: string)
    ensures d != ""
  {
    match rank
    case Initial => "App's just been added."
    case Common => UsagePrefix + "an hour. Keep it up."
    case Rare => UsagePrefix + "two hours. Not bad."
    case Experienced => UsagePrefix + "ten hours. I think you're already into it."
    case Advanced => UsagePrefix + "an fifty hours. Point of no return."
    case Pro => UsagePrefix + "one hundred hours. You're already hooked."
    case Insane => UsagePrefix + "five hundred hours. You really like this, don't you?"
    case Lunatic => UsagePrefix + "one thousand hours. You know everything about this app."
    case TouchGrass => UsagePrefix + "three thousand hours. Can't believe I just said that."
    case Master => UsagePrefix + "ten thousand hours. You've mastered it all"
  }

  /** The rung, in whole hours, at which each rank is awarded: the reference ladder. */
  function RungHours(rank: BadgeRank): nat {
    match rank
    case Initial => 0
    case Common => 1
    case Rare => 2
    case Experienced => 10
    case Advanced => 50
    case Pro => 100
    case Insane => 500
    case Lunatic => 1000
    case TouchGrass => 3000
    case Master => 10000
  }

  /** Position of a rank in the ladder. */
  function LadderIndex(rank: BadgeRank): nat {
    match rank
    case Initial => 0
    case Common => 1
    case Rare => 2
    case Experienced => 3
    case Advanced => 4
    case Pro => 5
    case Insane => 6
    case Lunatic => 7
    case TouchGrass => 8
    case Master => 9
  }

  /** A badge is produced exactly when the whole hours land on one of the ten rungs. */
  lemma GetBadgeOnlyOnRungs(elapsedSecs: nat, username: string)
    ensures GetBadge(elapsedSecs, username).Some? <==>
      elapsedSecs / 3600 in {0, 1, 2, 10, 50, 100, 500, 1000, 3000, 10000}
  {
  }

  /** The rank returned is the one whose rung equals the whole hours elapsed. */
  lemma GetBadgeMatchesLadder(elapsedSecs: nat, username: string)
    ensures GetBadge(elapsedSecs, username).Some? ==>
      RungHours(GetBadge(elapsedSecs, username).value.rank) == elapsedSecs / 3600
  {
    var h := elapsedSecs / 3600;
    var rank := RankForHours(h);
    if rank.Some? {
      assert h in {0, 1, 2, 10, 50, 100, 500, 1000, 3000, 10000};
    }
  }

  /** Every rung yields its own rank, for any second within that hour. */
  lemma GetBadgeAtRung(rank: BadgeRank, extraSecs: nat, username: string)
    requires extraSecs < 3600
    ensures GetBadge(RungHours(rank) * 3600 + extraSecs, username).Some?
    ensures GetBadge(RungHours(rank) * 3600 + extraSecs, username).value.rank == rank
  {
    assert (RungHours(rank) * 3600 + extraSecs) / 3600 == RungHours(rank);
  }

  /** No two different hour counts give the same rank. */
  lemma GetBadgeRankInjective(secs1: nat, secs2: nat, username: string)
    requires GetBadge(secs1, username).Some? && GetBadge(secs2, username).Some?
    requires GetBadge(secs1, username).value.rank == GetBadge(secs2, username).value.rank
    ensures secs1 / 3600 == secs2 / 3600
  {
    GetBadgeMatchesLadder(secs1, username);
    GetBadgeMatchesLadder(secs2, username);
  }

  /** The ladder is ordered: a later rank sits on a strictly higher rung. */
  lemma LadderIsOrdered(a: BadgeRank, b: BadgeRank)
    ensures LadderIndex(a) < LadderIndex(b) <==> RungHours(a) < RungHours(b)
  {
  }

  /** Any time in the first hour earns the Initial badge. */
  lemma FirstHourIsInitial(elapsedSecs: nat, username: string)
    requires elapsedSecs < 3600
    ensures GetBadge(elapsedSecs, username).Some?
    ensures GetBadge(elapsedSecs, username).value.rank == Initial
  {
  }

  /** Matching is by equality, not by threshold: hours 3 and 11 earn nothing. */
  lemma BetweenRungsNoBadge(username: string)
    ensures GetBadge(3 * 3600, username).None?
    ensures GetBadge(11 * 3600 + 59, username).None?
  {
  }
}
