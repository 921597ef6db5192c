/**
 * The user progress route: the average and streak it reports, the
 * improvement trend over the newest sessions, the user level, the goal
 * progress ratios and the achievement badges.
 */
module UserProgress {
  import opened Wrappers
  import opened PracticeSubmit

  function Min(a: int, b: int): int {
    if a < b then a else b
  }

  function MinReal(a: real, b: real): real {
    if a < b then a else b
  }

  // ---------------------------------------------------------------------
  // Improvement trend
  // ---------------------------------------------------------------------

  datatype Trend = Improving | Declining | Stable
  {
    function Name(): string {
      match this
      case Improving => "improving"
      case Declining => "declining"
      case Stable => "stable"
    }

    function Flip(): Trend {
      match this
      case Improving => Declining
      case Declining => Improving
      case Stable => Stable
    }
  }

  /**
   * The trend of the score window, in integer arithmetic: the mean of the
   * first three beats the mean of the last three by more than half a point
   * exactly when 2·(sum of the first three) > 2·(sum of the last three) + 3.
   */
  function TrendOf(w: seq<int>): (t: Trend)
    ensures |w| < 3 ==> t == Stable
    ensures t != Stable ==> Sum(w[..3]) != Sum(w[|w| - 3..])
  {
    if |w| < 3 then Stable
    else
      var recent := Sum(w[..3]);
      var older := Sum(w[|w| - 3..]);
      if 2 * recent > 2 * older + 3 then Improving
      else if 2 * recent < 2 * older - 3 then Declining
      else Stable
  }

  /** The comparison of averages the route makes is the integer comparison. */
  lemma TrendMeaning(w: seq<int>)
    requires |w| >= 3
    ensures TrendOf(w) == Improving <==> Mean(w[..3]) > Mean(w[|w| - 3..]) + 0.5
    ensures TrendOf(w) == Declining <==> Mean(w[..3]) < Mean(w[|w| - 3..]) - 0.5
  {
  }

  /** With exactly three sessions both windows are the same three, so nothing changes. */
  lemma ThreeSessionsStable(w: seq<int>)
    requires |w| == 3
    ensures TrendOf(w) == Stable
  {
    assert w[|w| - 3..] == w[..3];
  }

  function Reverse(s: seq<int>): (r: seq<int>)
    ensures |r| == |s|
    ensures forall i :: 0 <= i < |s| ==> r[i] == s[|s| - 1 - i]
  {
    if s == [] then [] else Reverse(s[1..]) + [s[0]]
  }

  lemma {:induction false} SumOfCons(x: int, s: seq<int>)
    ensures Sum([x] + s) == x + Sum(s)
    decreases |s|
  {
    if s != [] {
      var t := [x] + s;
      assert t[..|t| - 1] == [x] + s[..|s| - 1];
      SumOfCons(x, s[..|s| - 1]);
    } else {
      assert [x] + s == [x];
      assert [x][..0] == [];
    }
  }

  lemma {:induction false} SumOfReverse(s: seq<int>)
    ensures Sum(Reverse(s)) == Sum(s)
  {
    if s != [] {
      SumOfReverse(s[1..]);
      var r := Reverse(s[1..]) + [s[0]];
      assert r[..|r| - 1] == Reverse(s[1..]);
      SumOfCons(s[0], s[1..]);
      assert [s[0]] + s[1..] == s;
    }
  }

  /** Reading the sessions in the other order swaps improving and declining. */
  lemma TrendOfReverse(w: seq<int>)
    ensures TrendOf(Reverse(w)) == TrendOf(w).Flip()
  {
    if |w| >= 3 {
      var r := Reverse(w);
      assert r[..3] == Reverse(w[|w| - 3..]);
      assert r[|r| - 3..] == Reverse(w[..3]);
      SumOfReverse(w[|w| - 3..]);
      SumOfReverse(w[..3]);
    }
  }

  // ---------------------------------------------------------------------
  // User level
  // ---------------------------------------------------------------------

  datatype Level = Beginner | Intermediate | Advanced
  {
    function Name(): string {
      match this
      case Beginner => "Beginner"
      case Intermediate => "Intermediate"
      case Advanced => "Advanced"
    }

    function Rank(): nat {
      match this
      case Beginner => 0
      case Intermediate => 1
      case Advanced => 2
    }
  }

  /**
   * Advanced takes at least 10 sessions and an average of 7; Intermediate at
   * least 5 sessions and an average of 5; everyone else is a Beginner.
   */
  function UserLevel(totalSessions: int, averageScore: real): (l: Level)
    ensures l == Advanced <==> totalSessions >= 10 && averageScore >= 7.0
    ensures l == Intermediate <==> !(totalSessions >= 10 && averageScore >= 7.0)
                                   && totalSessions >= 5 && averageScore >= 5.0
  {
    if totalSessions >= 10 && averageScore >= 7.0 then Advanced
    else if totalSessions >= 5 && averageScore >= 5.0 then Intermediate
    else Beginner
  }

  /** More sessions and a higher average never lower the level. */
  lemma LevelMonotone(t: int, a: real, t': int, a': real)
    requires t <= t' && a <= a'
    ensures UserLevel(t, a).Rank() <= UserLevel(t', a').Rank()
  {
  }

  // ---------------------------------------------------------------------
  // Goals and achievements
  // ---------------------------------------------------------------------

  datatype GoalsProgress = GoalsProgress(weeklyProgress: real, streakProgress: real, scoreProgress: real)

  /** Each goal's progress is its value over the target (3, 7 and 8.0), capped at 1. */
  function Goals(recentSessionsCount: nat, streak: int, averageScore: real): (g: GoalsProgress)
    ensures g.weeklyProgress <= 1.0 && g.streakProgress <= 1.0 && g.scoreProgress <= 1.0
    ensures recentSessionsCount <= 3 ==> g.weeklyProgress == recentSessionsCount as real / 3.0
    ensures streak <= 7 ==> g.streakProgress == streak as real / 7.0
    ensures averageScore <= 8.0 ==> g.scoreProgress == averageScore / 8.0
    ensures recentSessionsCount >= 3 ==> g.weeklyProgress == 1.0
    ensures streak >= 7 ==> g.streakProgress == 1.0
    ensures averageScore >= 8.0 ==> g.scoreProgress == 1.0
  {
    GoalsProgress(
      MinReal(recentSessionsCount as real / 3.0, 1.0),
      MinReal(streak as real / 7.0, 1.0),
      MinReal(averageScore / 8.0, 1.0))
  }

  datatype Achievement = Achievement(id: string, name: string, description: string, earned: bool, earnedAt: Option<string>)

  /** The six badges, before `earnedAt` is filled in. */
  datatype Badge = Badge(id: string, name: string, description: string, earned: bool)

  function Badges(totalSessions: int, averageScore: real, streak: int): (r: seq<Badge>)
    ensures |r| == 6
    ensures forall i :: 0 <= i < 6 ==> r[i].id == AchievementIds[i]
    ensures forall i :: 0 <= i < 6 ==> (r[i].earned <==> Earns(i, totalSessions, averageScore, streak))
  {
    [ Badge("first_pitch", "First Steps", "Complete your first practice session", totalSessions >= 1),
      Badge("five_sessions", "Getting Started", "Complete 5 practice sessions", totalSessions >= 5),
      Badge("ten_sessions", "Committed Learner", "Complete 10 practice sessions", totalSessions >= 10),
      Badge("high_scorer", "Excellence Achiever", "Maintain an average score of 8 or higher", averageScore >= 8.0),
      Badge("week_streak", "Consistent Practitioner", "Practice for 7 consecutive days", streak >= 7),
      Badge("month_streak", "Dedicated Speaker", "Practice for 30 consecutive days", streak >= 30) ]
  }

  /** `{...achievement, earnedAt: achievement.earned ? now : undefined}` over every badge. */
  function Stamp(bs: seq<Badge>, now: string): (r: seq<Achievement>)
    ensures |r| == |bs|
    ensures forall i :: 0 <= i < |bs| ==>
              r[i].id == bs[i].id && r[i].name == bs[i].name && r[i].description == bs[i].description
              && r[i].earned == bs[i].earned
              && r[i].earnedAt == (if bs[i].earned then Some(now) else None)
  {
    if bs == [] then []
    else
      [Achievement(bs[0].id, bs[0].name, bs[0].description, bs[0].earned,
                   if bs[0].earned then Some(now) else None)]
      + Stamp(bs[1..], now)
  }

  const AchievementIds: seq<string> :=
    ["first_pitch", "five_sessions", "ten_sessions", "high_scorer", "week_streak", "month_streak"]

  /** The thresholds, in the order of AchievementIds. */
  predicate Earns(i: nat, totalSessions: int, averageScore: real, streak: int): (b: bool)
    requires i < 6
    ensures b && (i == 1 || i == 2) ==> Earns(i - 1, totalSessions, averageScore, streak)
    ensures b && i == 5 ==> Earns(4, totalSessions, averageScore, streak)
  {
    [totalSessions >= 1, totalSessions >= 5, totalSessions >= 10,
     averageScore >= 8.0, streak >= 7, streak >= 30][i]
  }

  /**
   * calculateAchievements: six fixed badges in a fixed order, each earned by
   * its threshold, with a time stamp exactly when earned.
   */
  function CalculateAchievements(totalSessions: int, averageScore: real, streak: int, now: string): (r: seq<Achievement>)
    ensures |r| == 6
    ensures forall i :: 0 <= i < 6 ==> r[i].id == AchievementIds[i]
    ensures forall i :: 0 <= i < 6 ==> (r[i].earned <==> Earns(i, totalSessions, averageScore, streak))
    ensures forall i :: 0 <= i < 6 ==> (r[i].earnedAt.Some? <==> r[i].earned)
    ensures forall i :: 0 <= i < 6 ==> r[i].earnedAt.Some? ==> r[i].earnedAt.value == now
  {
    Stamp(Badges(totalSessions, averageScore, streak), now)
  }

  /** Raising the session count, the average or the streak never takes a badge away. */
  lemma AchievementsMonotone(t: int, a: real, s: int, t': int, a': real, s': int, now: string, now': string)
    requires t <= t' && a <= a' && s <= s'
    ensures forall i :: 0 <= i < 6 ==>
              CalculateAchievements(t, a, s, now)[i].earned ==> CalculateAchievements(t', a', s', now')[i].earned
  {
  }

  // ---------------------------------------------------------------------
  // The route
  // ---------------------------------------------------------------------

  /** The average reported: the progress row's, else the mean of the fetched sessions, else 0. */
  function ReportedAverage(record: Option<ProgressRecord>, recent: seq<int>): (a: real)
    ensures record.Some? ==> a == record.value.averageScore
    ensures record.None? && recent != [] ==> a == Mean(recent)
    ensures record.None? && recent == [] ==> a == 0.0
  {
    if record.Some? then record.value.averageScore else Mean(recent)
  }

  /** `userProgress?.totalSessions || totalSessions`: the row's count unless missing or 0. */
  function ReportedTotal(record: Option<ProgressRecord>, fetched: nat): (n: nat)
    ensures record.Some? && record.value.totalSessions != 0 ==> n == record.value.totalSessions
    ensures (record.None? || record.value.totalSessions == 0) ==> n == fetched
  {
    if record.Some? && record.value.totalSessions != 0 then record.value.totalSessions else fetched
  }

  /** The response body (averageScore before its rounding to one decimal). */
  datatype ProgressData = ProgressData(
    totalSessions: nat,
    averageScore: real,
    streak: int,
    improvementTrend: Trend,
    userLevel: Level,
    recentScores: seq<int>,
    goalsProgress: GoalsProgress,
    achievements: seq<Achievement>)

  datatype ProgressResponse = Unauthorized | Progress(data: ProgressData)

  /** The trend the route works out with real averages of the first and last three scores. */
  method ImprovementTrend(scoreTrend: seq<int>) returns (improvementTrend: Trend)
    ensures improvementTrend == TrendOf(scoreTrend)
  {
    improvementTrend := Stable;
    if |scoreTrend| >= 3 {
      var recentAvg := Sum(scoreTrend[..3]) as real / 3.0;
      var olderAvg := Sum(scoreTrend[|scoreTrend| - 3..]) as real / 3.0;
      if recentAvg > olderAvg + 0.5 {
        improvementTrend := Improving;
      } else if recentAvg < olderAvg - 0.5 {
        improvementTrend := Declining;
      }
    }
  }

  /** The level the route assigns step by step. */
  method LevelOf(totalSessions: int, averageScore: real) returns (userLevel: Level)
    ensures userLevel == UserLevel(totalSessions, averageScore)
  {
    userLevel := Beginner;
    if totalSessions >= 10 && averageScore >= 7.0 {
      userLevel := Advanced;
    } else if totalSessions >= 5 && averageScore >= 5.0 {
      userLevel := Intermediate;
    }
  }

  /**
   * GET /api/user/progress. `scores` are the user's session scores newest
   * first (findMany ... take: 10 keeps the first ten), `record` the progress
   * row, `recentSessionsCount` the count of the last thirty days and `now`
   * the current time stamp.
   */
  method GetProgress(userId: Option<string>, record: Option<ProgressRecord>, scores: seq<int>,
                     recentSessionsCount: nat, now: string) returns (resp: ProgressResponse)
    ensures resp == ProgressResponse.Unauthorized <==> !SignedIn(userId)
    ensures resp.Progress? ==>
              var recent := scores[..Min(10, |scores|)];
              var average := ReportedAverage(record, recent);
              var streak := if record.Some? then record.value.streak else 0;
              && resp.data.totalSessions == ReportedTotal(record, |recent|)
              && resp.data.averageScore == average
              && resp.data.streak == streak
              && resp.data.recentScores == recent[..Min(5, |recent|)]
              && resp.data.improvementTrend == TrendOf(recent[..Min(5, |recent|)])
              && resp.data.userLevel == UserLevel(|recent|, average)
              && resp.data.goalsProgress == Goals(recentSessionsCount, streak, average)
              && resp.data.achievements == CalculateAchievements(|recent|, average, streak, now)
  {
    if !SignedIn(userId) {
      return ProgressResponse.Unauthorized;
    }
    var recentSessions := scores[..Min(10, |scores|)];
    var totalSessions := |recentSessions|;
    var averageScore := 0.0;
    var streak := 0;
    if record.Some? {
      averageScore := record.value.averageScore;
      streak := record.value.streak;
    } else if totalSessions > 0 {
      averageScore := Sum(recentSessions) as real / totalSessions as real;
    }

    var scoreTrend := recentSessions[..Min(5, |recentSessions|)];
    var improvementTrend := ImprovementTrend(scoreTrend);
    var userLevel := LevelOf(totalSessions, averageScore);

    var total := if record.Some? && record.value.totalSessions != 0 then record.value.totalSessions else totalSessions;
    resp := Progress(ProgressData(
      total, averageScore, streak, improvementTrend, userLevel, scoreTrend,
      Goals(recentSessionsCount, streak, averageScore),
      CalculateAchievements(totalSessions, averageScore, streak, now)));
  }
}
