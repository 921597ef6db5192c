/**
 * The helpers of the streak counter card: the level band of a streak, the
 * encouragement message, and the distance to the next milestone.
 */
module StreakCounter {
  import opened Wrappers

  datatype StreakLevel = Starting | Warm | Hot | Fire | Legendary
  {
    function Name(): string {
      match this
      case Starting => "starting"
      case Warm => "warm"
      case Hot => "hot"
      case Fire => "fire"
      case Legendary => "legendary"
    }

    function Rank(): nat {
      match this
      case Starting => 0
      case Warm => 1
      case Hot => 2
      case Fire => 3
      case Legendary => 4
    }
  }

  /** The milestones, in increasing order; each is also the lower end of a level band. */
  const Milestones: seq<int> := [3, 7, 14, 30]

  /** getStreakLevel: at least 30 legendary, 14 fire, 7 hot, 3 warm, otherwise starting. */
  function GetStreakLevel(streak: int): (l: StreakLevel)
    ensures l == Legendary <==> streak >= 30
    ensures l == Fire <==> 14 <= streak < 30
    ensures l == Hot <==> 7 <= streak < 14
    ensures l == Warm <==> 3 <= streak < 7
    ensures l == Starting <==> streak < 3
  {
    if streak >= 30 then Legendary
    else if streak >= 14 then Fire
    else if streak >= 7 then Hot
    else if streak >= 3 then Warm
    else Starting
  }

  /** The level goes up by one exactly at each milestone. */
  lemma LevelsChangeAtMilestones(i: nat)
    requires i < |Milestones|
    ensures GetStreakLevel(Milestones[i]).Rank() == i + 1
    ensures GetStreakLevel(Milestones[i] - 1).Rank() == i
  {
  }

  /** A longer streak never has a lower level. */
  lemma LevelMonotone(a: int, b: int)
    requires a <= b
    ensures GetStreakLevel(a).Rank() <= GetStreakLevel(b).Rank()
  {
  }

  /** getStreakMessage: 0 and 1 have their own texts, then 2-6, 7-13, 14-29 and 30 on. */
  function GetStreakMessage(streak: int): (m: string)
    ensures streak == 0 ==> m == "Start your streak today!"
    ensures streak == 1 ==> m == "Great start! Keep it up!"
    ensures (streak < 0 || 2 <= streak < 7) ==> m == "Building momentum!"
    ensures 7 <= streak < 14 ==> m == "You're on fire! 🔥"
    ensures 14 <= streak < 30 ==> m == "Incredible consistency!"
    ensures streak >= 30 ==> m == "Legendary streak! 🏆"
  {
    if streak == 0 then "Start your streak today!"
    else if streak == 1 then "Great start! Keep it up!"
    else if streak < 7 then "Building momentum!"
    else if streak < 14 then "You're on fire! 🔥"
    else if streak < 30 then "Incredible consistency!"
    else "Legendary streak! 🏆"
  }

  /** Above 1 the message changes exactly where the level does (warm and starting share one). */
  lemma MessageFollowsLevel(a: int, b: int)
    requires a >= 2 && b >= 2
    requires GetStreakLevel(a) == GetStreakLevel(b) || {GetStreakLevel(a), GetStreakLevel(b)} <= {Starting, Warm}
    ensures GetStreakMessage(a) == GetStreakMessage(b)
  {
  }

  /** getDaysUntilNextMilestone: days to the first milestone above the streak, none from 30 on. */
  function GetDaysUntilNextMilestone(streak: int): (r: Option<int>)
    ensures r.None? <==> streak >= 30
  {
    if streak < 3 then Some(3 - streak)
    else if streak < 7 then Some(7 - streak)
    else if streak < 14 then Some(14 - streak)
    else if streak < 30 then Some(30 - streak)
    else None
  }

  /** The first milestone above the streak, found by a search of the list. */
  function NextMilestoneFrom(streak: int, i: nat): (m: Option<int>)
    requires i <= |Milestones|
    ensures m.Some? ==> m.value in Milestones[i..] && m.value > streak
    ensures m.Some? ==> forall j :: i <= j < |Milestones| && Milestones[j] > streak ==> m.value <= Milestones[j]
    ensures m.None? ==> forall j :: i <= j < |Milestones| ==> Milestones[j] <= streak
    decreases |Milestones| - i
  {
    if i == |Milestones| then None
    else if Milestones[i] > streak then Some(Milestones[i])
    else NextMilestoneFrom(streak, i + 1)
  }

  /**
   * The distance is m - streak for the smallest milestone m above the streak,
   * and there is none once the streak reaches the last milestone.
   */
  lemma DaysUntilIsSmallestMilestone(streak: int)
    ensures GetDaysUntilNextMilestone(streak).Some? <==> NextMilestoneFrom(streak, 0).Some?
    ensures GetDaysUntilNextMilestone(streak).Some? ==>
              GetDaysUntilNextMilestone(streak).value == NextMilestoneFrom(streak, 0).value - streak
  {
    var m := NextMilestoneFrom(streak, 0);
    if m.Some? {
      assert Milestones[0] == 3 && Milestones[1] == 7 && Milestones[2] == 14 && Milestones[3] == 30;
    }
  }

  /** A streak below 30 is always at least one day short of its next milestone. */
  lemma AtLeastOneDay(streak: int)
    requires streak < 30
    ensures GetDaysUntilNextMilestone(streak).Some? && GetDaysUntilNextMilestone(streak).value >= 1
  {
  }
}
