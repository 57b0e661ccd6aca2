/**
 * The level manager: the player's rank from the time spent and the pickups collected.
 * Its three thresholds are inspector settings, so the manager is a value.
 */
module Ranking {

  /** The player's rank, best first. */
  datatype PlayerRank = Gold | Silver | Bronze

  /** Position of a rank in the order Gold < Silver < Bronze (smaller is better). */
  function Standing(rank: PlayerRank): nat
  {
    match rank
    case Gold => 0
    case Silver => 1
    case Bronze => 2
  }

  datatype LevelManager = LevelManager(goldRequirement: real, silverRequirement: real, timeBonus: real)
  {
    /** The time that is ranked: every pickup takes timeBonus seconds off the time spent. */
    function TotalTime(timeSpent: real, pickupsCollected: int): (total: real)
      ensures pickupsCollected == 0 ==> total == timeSpent
      ensures timeBonus >= 0.0 && pickupsCollected >= 0 ==> total <= timeSpent
    {
      timeSpent - pickupsCollected as real * timeBonus
    }

    /** Gold when the total time is within the gold limit, else Silver within the silver limit, else Bronze. */
    function GetRank(timeSpent: real, pickupsCollected: int): (rank: PlayerRank)
      ensures rank == Gold <==> TotalTime(timeSpent, pickupsCollected) <= goldRequirement
      ensures rank == Silver <==>
        goldRequirement < TotalTime(timeSpent, pickupsCollected) <= silverRequirement
      ensures rank == Bronze <==>
        goldRequirement < TotalTime(timeSpent, pickupsCollected) && silverRequirement < TotalTime(timeSpent, pickupsCollected)
    {
      var totalTime := TotalTime(timeSpent, pickupsCollected);
      if totalTime <= goldRequirement then Gold
      else if totalTime <= silverRequirement then Silver
      else Bronze
    }

    /** The rank depends on the time and the pickups only through the total time, and never gets better as it grows. */
    lemma {:induction false} RankAntitone(t1: real, p1: int, t2: real, p2: int)
      requires TotalTime(t1, p1) <= TotalTime(t2, p2)
      ensures Standing(GetRank(t1, p1)) <= Standing(GetRank(t2, p2))
    {
    }

    /** With a non-negative bonus, collecting more pickups in the same time never gives a worse rank. */
    lemma {:induction false} MorePickupsNeverWorse(timeSpent: real, fewer: int, more: int)
      requires timeBonus >= 0.0 && fewer <= more
      ensures Standing(GetRank(timeSpent, more)) <= Standing(GetRank(timeSpent, fewer))
    {
      assert (more - fewer) as real * timeBonus >= 0.0 by {
        NonNegativeProduct((more - fewer) as real, timeBonus);
      }
      assert TotalTime(timeSpent, more) <= TotalTime(timeSpent, fewer);
      RankAntitone(timeSpent, more, timeSpent, fewer);
    }

    /** With the pickups fixed, spending more time never gives a better rank. */
    lemma {:induction false} MoreTimeNeverBetter(shorter: real, longer: real, pickupsCollected: int)
      requires shorter <= longer
      ensures Standing(GetRank(shorter, pickupsCollected)) <= Standing(GetRank(longer, pickupsCollected))
    {
      RankAntitone(shorter, pickupsCollected, longer, pickupsCollected);
    }
  }

  lemma NonNegativeProduct(x: real, y: real)
    requires x >= 0.0 && y >= 0.0
    ensures x * y >= 0.0
  {
  }
}
