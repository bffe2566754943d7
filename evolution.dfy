/** The evolution summary (src/components/EvolutionDashboard.tsx): changes between the first
    and last weigh-ins, the change over the last seven entries, the distance to the goal
    weight, and the three achievement badges. */
module Evolution {
  import opened Wrappers
  import opened Numbers
  import opened Types
  import opened WeightHistory

  datatype EvolutionStats = EvolutionStats(
    totalWeightChange: real,
    totalWaistChange: real,
    weeklyTrend: real,
    daysTracked: nat,
    startDate: Date,
    currentWeight: real,
    goalWeight: Option<real>,      // None stands for NaN
    remainingToGoal: Option<real>) // None stands for NaN

  /** Last value minus first value, or 0 for fewer than two entries. */
  function ChangeOver(s: seq<Measurement>): real {
    if |s| < 2 then 0.0 else s[|s| - 1].value - s[0].value
  }

  /** The sum of the changes between consecutive entries. */
  function Steps(s: seq<Measurement>): real {
    if |s| < 2 then 0.0 else (s[1].value - s[0].value) + Steps(s[1..])
  }

  /** The first-to-last change is the sum of the step-by-step changes. */
  lemma {:induction false} ChangeTelescopes(s: seq<Measurement>)
    ensures ChangeOver(s) == Steps(s)
  {
    if |s| >= 2 {
      ChangeTelescopes(s[1..]);
    }
  }

  /** `slice(-7)`: the last seven entries, or all of them when there are fewer. */
  function LastSeven(s: seq<Measurement>): (r: seq<Measurement>)
    ensures |r| == if |s| < 7 then |s| else 7
    ensures r == s[|s| - |r|..]
  {
    if |s| <= 7 then s else s[|s| - 7..]
  }

  /** `evolutionStats`: nothing with fewer than two weigh-ins. Otherwise, over the histories
      sorted by date: the change from the earliest weigh-in to the latest, the same for the
      waist when it has two entries (else 0), the change over the last seven weigh-ins,
      the number of weigh-ins, the earliest date, the latest weight, the goal (an empty goal
      reads as 0) and how far the latest weight is from it. */
  function EvolutionOf(weights: seq<Measurement>, waists: seq<Measurement>, goal: Text): (r: Option<EvolutionStats>)
    ensures r.None? <==> |weights| < 2
    ensures r.Some? ==> r.value.daysTracked == |weights|
    ensures r.Some? ==> forall i :: 0 <= i < |weights| ==> r.value.startDate <= weights[i].date
    ensures r.Some? ==> exists i :: 0 <= i < |weights| && weights[i].date == r.value.startDate
    ensures r.Some? ==> r.value.goalWeight == NumberOf(goal)
    ensures r.Some? && r.value.goalWeight.Some? ==>
      r.value.remainingToGoal == Some(r.value.goalWeight.value - r.value.currentWeight)
    ensures r.Some? && r.value.goalWeight.None? ==> r.value.remainingToGoal.None?
    ensures r.Some? ==> r.value.totalWeightChange == r.value.currentWeight - SortByDate(weights)[0].value
    ensures |waists| < 2 ==> r.Some? ==> r.value.totalWaistChange == 0.0
  {
    if |weights| < 2 then None
    else
      var sortedWeights := SortByDate(weights);
      var sortedWaist := SortByDate(waists);
      var first, last := sortedWeights[0], sortedWeights[|sortedWeights| - 1];
      EarliestDate(weights);
      var goalWeight := NumberOf(goal);
      Some(EvolutionStats(
        last.value - first.value,
        ChangeOver(sortedWaist),
        ChangeOver(LastSeven(sortedWeights)),
        |sortedWeights|,
        first.date,
        last.value,
        goalWeight,
        if goalWeight.Some? then Some(goalWeight.value - last.value) else None))
  }

  /** The first entry of the sorted copy carries the earliest date of the history. */
  lemma EarliestDate(s: seq<Measurement>)
    requires |s| > 0
    ensures forall i :: 0 <= i < |s| ==> SortByDate(s)[0].date <= s[i].date
    ensures exists i :: 0 <= i < |s| && s[i].date == SortByDate(s)[0].date
  {
    SortedFirstIsEarliest(s);
    var k :| 0 <= k < |s| && s[k] == SortByDate(s)[0];
  }

  /** The latest weight is that of an entry no other entry postdates. */
  lemma CurrentWeightIsLatest(weights: seq<Measurement>, waists: seq<Measurement>, goal: Text)
    requires |weights| >= 2
    ensures exists i :: (0 <= i < |weights| &&
      weights[i].value == EvolutionOf(weights, waists, goal).value.currentWeight &&
      forall j :: 0 <= j < |weights| ==> weights[j].date <= weights[i].date)
  {
    var sorted := SortByDate(weights);
    var last := sorted[|sorted| - 1];
    SortedLastIsLatest(weights);
    var i :| 0 <= i < |weights| && weights[i] == last;
  }

  /** Entry `i` has the earliest date of the history. */
  predicate EarliestAt(s: seq<Measurement>, i: int) {
    0 <= i < |s| && forall j :: 0 <= j < |s| ==> s[i].date <= s[j].date
  }

  /** Entry `i` has the latest date of the history. */
  predicate LatestAt(s: seq<Measurement>, i: int) {
    0 <= i < |s| && forall j :: 0 <= j < |s| ==> s[j].date <= s[i].date
  }

  /** The ends of the sorted copy are an earliest and a latest entry of the history. */
  lemma SortedEnds(s: seq<Measurement>)
    requires |s| > 0
    ensures exists i, j :: (EarliestAt(s, i) && LatestAt(s, j)
      && s[i] == SortByDate(s)[0] && s[j] == SortByDate(s)[|s| - 1])
  {
    SortedFirstIsEarliest(s);
    SortedLastIsLatest(s);
    var i :| 0 <= i < |s| && s[i] == SortByDate(s)[0];
    var j :| 0 <= j < |s| && s[j] == SortByDate(s)[|s| - 1];
    assert EarliestAt(s, i) && LatestAt(s, j);
  }

  /** The total changes are last minus first of the sorted histories, the waist's once it
      has two entries. */
  lemma TotalChangesOfSorted(weights: seq<Measurement>, waists: seq<Measurement>, goal: Text)
    requires |weights| >= 2
    ensures var stats, sw, sv := EvolutionOf(weights, waists, goal).value, SortByDate(weights), SortByDate(waists);
      && stats.totalWeightChange == sw[|sw| - 1].value - sw[0].value
      && (|waists| >= 2 ==> stats.totalWaistChange == sv[|sv| - 1].value - sv[0].value)
  {
  }

  /** The total weight change runs from an earliest weigh-in to a latest one. */
  lemma WeightChangeSpansHistory(weights: seq<Measurement>, waists: seq<Measurement>, goal: Text)
    requires |weights| >= 2
    ensures exists i, j :: (EarliestAt(weights, i) && LatestAt(weights, j)
      && EvolutionOf(weights, waists, goal).value.totalWeightChange == weights[j].value - weights[i].value)
  {
    var sorted := SortByDate(weights);
    TotalChangesOfSorted(weights, waists, goal);
    SortedEnds(weights);
    var i, j :| EarliestAt(weights, i) && LatestAt(weights, j)
      && weights[i] == sorted[0] && weights[j] == sorted[|weights| - 1];
    var total := EvolutionOf(weights, waists, goal).value.totalWeightChange;
    assert total == weights[j].value - weights[i].value;
  }

  /** With two or more waist entries, the total waist change runs from an earliest entry to a
      latest one. */
  lemma WaistChangeSpansHistory(weights: seq<Measurement>, waists: seq<Measurement>, goal: Text)
    requires |weights| >= 2 && |waists| >= 2
    ensures exists i, j :: (EarliestAt(waists, i) && LatestAt(waists, j)
      && EvolutionOf(weights, waists, goal).value.totalWaistChange == waists[j].value - waists[i].value)
  {
    var sorted := SortByDate(waists);
    TotalChangesOfSorted(weights, waists, goal);
    SortedEnds(waists);
    var i, j :| EarliestAt(waists, i) && LatestAt(waists, j)
      && waists[i] == sorted[0] && waists[j] == sorted[|waists| - 1];
    var total := EvolutionOf(weights, waists, goal).value.totalWaistChange;
    assert total == waists[j].value - waists[i].value;
  }

  /** With at most seven weigh-ins the weekly trend is the whole change. */
  lemma WeeklyTrendOfShortHistory(weights: seq<Measurement>, waists: seq<Measurement>, goal: Text)
    requires 2 <= |weights| <= 7
    ensures EvolutionOf(weights, waists, goal).value.weeklyTrend
         == EvolutionOf(weights, waists, goal).value.totalWeightChange
  {
  }

  /** The weekly trend counts entries, not calendar days: it is the sum of the steps between
      the last seven weigh-ins, however far apart their dates are. */
  lemma WeeklyTrendIsLastSixSteps(weights: seq<Measurement>, waists: seq<Measurement>, goal: Text)
    requires |weights| >= 2
    ensures EvolutionOf(weights, waists, goal).value.weeklyTrend == Steps(LastSeven(SortByDate(weights)))
  {
    ChangeTelescopes(LastSeven(SortByDate(weights)));
  }

  datatype Achievements = Achievements(consistency: bool, visibleProgress: bool, goalReached: bool)

  /** The badges: seven or more weigh-ins; a change of at least 1 kg either way; and nothing
      left to the goal (goal minus latest weight at most 0) for a goal that was filled in. */
  function AchievementsOf(stats: EvolutionStats, goal: Text): (a: Achievements)
    ensures a.goalReached ==> goal != Blank && stats.remainingToGoal.Some?
  {
    Achievements(
      stats.daysTracked >= 7,
      Abs(stats.totalWeightChange) >= 1.0,
      stats.remainingToGoal.Some? && stats.remainingToGoal.value <= 0.0 && goal != Blank)
  }

  /** The consistency badge appears exactly when seven weigh-ins exist. */
  lemma ConsistencyMeansSevenWeighIns(weights: seq<Measurement>, waists: seq<Measurement>, goal: Text)
    requires |weights| >= 2
    ensures AchievementsOf(EvolutionOf(weights, waists, goal).value, goal).consistency <==> |weights| >= 7
  {
  }

  /** The goal badge appears exactly when a goal was typed in as a number and the latest
      weight is at or above it: the remaining amount is goal minus weight, so a goal below
      the current weight counts as reached. */
  lemma GoalBadgeMeansAtOrAboveGoal(weights: seq<Measurement>, waists: seq<Measurement>, goal: Text)
    requires |weights| >= 2
    ensures AchievementsOf(EvolutionOf(weights, waists, goal).value, goal).goalReached <==>
      goal.Num? && EvolutionOf(weights, waists, goal).value.currentWeight >= goal.value
  {
  }

  /** The progress badge appears exactly when the latest and earliest weigh-ins differ by a
      kilogram or more, in either direction. */
  lemma ProgressBadgeMeansOneKilo(weights: seq<Measurement>, waists: seq<Measurement>, goal: Text)
    requires |weights| >= 2
    ensures var stats := EvolutionOf(weights, waists, goal).value;
      AchievementsOf(stats, goal).visibleProgress <==>
        stats.totalWeightChange >= 1.0 || stats.totalWeightChange <= -1.0
  {
  }
}
