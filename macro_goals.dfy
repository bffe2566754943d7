/** The macro-nutrient goals page (src/components/MacroGoals.tsx): the day's nutrient totals
    with estimates for foods logged without a profile, the progress towards each goal, and
    the editing of the goals. */
module Macros {
  import opened Wrappers
  import opened Numbers
  import opened Types
  import opened Tracker
  import opened History

  /** The profile assumed for a food logged without one: 15% of its energy from protein
      and 55% from carbohydrates at 4 kcal/g, 30% from fat at 9 kcal/g, and fixed ratios for
      fibre, sugar and sodium. */
  function Estimated(calories: real): (n: Nutrition)
    ensures n.calories == calories
    ensures n.protein * 4.0 + n.carbs * 4.0 + n.fat * 9.0 == calories
    ensures calories >= 0.0 ==> n.protein >= 0.0 && n.carbs >= 0.0 && n.fat >= 0.0
  {
    Nutrition(calories, calories * 0.15 / 4.0, calories * 0.55 / 4.0, calories * 0.30 / 9.0,
              calories * 0.01, calories * 0.1 / 4.0, calories * 0.5)
  }

  /** The profile of one unit of a food: its own when it has one, else the estimate. */
  function ProfileOf(f: FoodItem): (n: Nutrition)
    ensures f.nutrition.None? ==> n.calories == f.calories
  {
    if f.nutrition.Some? then f.nutrition.value else Estimated(f.calories)
  }

  /** One food's share of the day: its profile times the quantity eaten. */
  function Share(f: FoodItem): Nutrition {
    ScaleNutrition(ProfileOf(f), f.quantity)
  }

  /** `calculateDailyTotals`: the field-wise sum of the shares, folded from the left. */
  function DailyTotals(foods: seq<FoodItem>): Nutrition {
    if foods == [] then ZeroNutrition
    else AddNutrition(DailyTotals(foods[..|foods| - 1]), Share(foods[|foods| - 1]))
  }

  /** Logging a food adds its share to the totals of its day. */
  lemma AddFoodAddsShare(data: TrackerData, date: Date, food: FoodItem)
    ensures DailyTotals(DayOf(AddFoodOn(data, date, food), date).foods)
         == AddNutrition(DailyTotals(DayOf(data, date).foods), Share(food))
  {
    var before := DayOf(data, date).foods;
    assert (before + [food])[..|before|] == before;
  }

  /** A food without its own profile, or whose profile agrees with its calories. */
  predicate CaloriesAgree(f: FoodItem) {
    f.nutrition.None? || f.nutrition.value.calories == f.calories
  }

  /** A food whose profile agrees with its calories contributes its logged energy. */
  lemma ShareCalories(f: FoodItem)
    requires CaloriesAgree(f)
    ensures Share(f).calories == FoodEnergy(f)
  {
  }

  /** The calorie total of a day is the previous total plus the last food's share. */
  lemma CaloriesStep(foods: seq<FoodItem>)
    requires foods != []
    ensures DailyTotals(foods).calories
         == DailyTotals(foods[..|foods| - 1]).calories + Share(foods[|foods| - 1]).calories
  {
  }

  /** When every profile agrees with the calories logged, the calorie total is the
      consumption the history page shows. */
  lemma {:induction false} CalorieTotalIsConsumed(foods: seq<FoodItem>)
    requires forall i :: 0 <= i < |foods| ==> CaloriesAgree(foods[i])
    ensures DailyTotals(foods).calories == Consumed(foods)
  {
    if foods != [] {
      var init, last := foods[..|foods| - 1], foods[|foods| - 1];
      assert forall i :: 0 <= i < |init| ==> init[i] == foods[i];
      CalorieTotalIsConsumed(init);
      ShareCalories(last);
      CaloriesStep(foods);
      assert init + [last] == foods;
      Lists.SumSnoc(init, last, FoodEnergy);
    }
  }

  /** For foods logged without profiles the macro totals split the energy as estimated. */
  lemma {:induction false} EstimatesSplitEnergy(foods: seq<FoodItem>)
    requires forall i :: 0 <= i < |foods| ==> foods[i].nutrition.None?
    ensures var t := DailyTotals(foods);
      t.protein * 4.0 + t.carbs * 4.0 + t.fat * 9.0 == t.calories
  {
    if foods != [] {
      EstimatesSplitEnergy(foods[..|foods| - 1]);
    }
  }

  /** The four goals shown on the page. */
  datatype Macro = Calories | Protein | Carbs | Fat

  function Amount(n: Nutrition, m: Macro): real {
    match m
    case Calories => n.calories
    case Protein => n.protein
    case Carbs => n.carbs
    case Fat => n.fat
  }

  function Goal(g: MacroGoals, m: Macro): real {
    match m
    case Calories => g.calories
    case Protein => g.protein
    case Carbs => g.carbs
    case Fat => g.fat
  }

  /** One goal card: the day's amount rounded to a whole number, and the goal. */
  datatype MacroRow = MacroRow(macro: Macro, current: int, goal: real)

  /** `macroData`: calories, protein, carbohydrates and fat, in that order. */
  function MacroRows(totals: Nutrition, goals: MacroGoals): (r: seq<MacroRow>)
    ensures |r| == 4
    ensures r[0].macro == Calories && r[1].macro == Protein && r[2].macro == Carbs && r[3].macro == Fat
    ensures forall i :: 0 <= i < 4 ==>
      r[i].goal == Goal(goals, r[i].macro) &&
      Amount(totals, r[i].macro) - 0.5 < r[i].current as real <= Amount(totals, r[i].macro) + 0.5
  {
    seq(4, i requires 0 <= i < 4 =>
      var m := [Calories, Protein, Carbs, Fat][i];
      MacroRow(m, Round(Amount(totals, m)), Goal(goals, m)))
  }

  /** The width of the progress bar: nothing for a goal that is not positive, else the share
      of the goal reached, capped at 100. */
  function Percentage(current: int, goal: real): (p: real)
    ensures p <= 100.0
    ensures goal <= 0.0 ==> p == 0.0
    ensures goal > 0.0 && current >= 0 ==> p >= 0.0
    ensures goal > 0.0 ==> (p == 100.0 <==> current as real >= goal)
    ensures goal > 0.0 && current as real < goal ==> p * goal == current as real * 100.0
  {
    if goal > 0.0 then
      ShareOfGoal(current as real, goal);
      Min(current as real / goal * 100.0, 100.0)
    else 0.0
  }

  /** The share of a positive goal reaches 100% exactly when the goal is reached. */
  lemma ShareOfGoal(current: real, goal: real)
    requires goal > 0.0
    ensures current / goal * 100.0 >= 100.0 <==> current >= goal
    ensures current / goal * 100.0 * goal == current * 100.0
    ensures current >= 0.0 ==> current / goal * 100.0 >= 0.0
  {
    var q := current / goal;
    assert q * goal == current;
    if q >= 1.0 {
      assert (q - 1.0) * goal >= 0.0;
    } else {
      assert (1.0 - q) * goal > 0.0;
    }
  }

  /** `isComplete`. */
  predicate IsComplete(current: int, goal: real) {
    current as real >= goal
  }

  /** The text under the bar: how much is missing ("Faltam"), or nothing when the goal is
      met ("Meta atingida!"). */
  function Missing(current: int, goal: real): (r: Option<real>)
    ensures r.Some? ==> r.value > 0.0 && current as real + r.value == goal
  {
    if goal - current as real > 0.0 then Some(goal - current as real) else None
  }

  /** The badge and the "goal met" text always agree, and for a positive goal both mean a
      full bar. */
  lemma CompleteMeansNothingMissing(current: int, goal: real)
    ensures IsComplete(current, goal) <==> Missing(current, goal).None?
    ensures goal > 0.0 ==> (IsComplete(current, goal) <==> Percentage(current, goal) == 100.0)
  {
  }

  /** `parseInt(value) || 0`: the integer part of the typed number; anything else, and a
      typed 0, gives 0. */
  function GoalInput(t: Text): (r: real)
    ensures r == r.Floor as real
    ensures !t.Num? ==> r == 0.0
    ensures t.Num? ==> Abs(r) <= Abs(t.value) < Abs(r) + 1.0
  {
    var parsed := ParseInt(t);
    if parsed.Some? then parsed.value as real else 0.0
  }

  function WithGoal(g: MacroGoals, m: Macro, value: real): (r: MacroGoals)
    ensures Goal(r, m) == value
    ensures forall other :: other != m ==> Goal(r, other) == Goal(g, other)
    ensures r.fiber == g.fiber
  {
    match m
    case Calories => g.(calories := value)
    case Protein => g.(protein := value)
    case Carbs => g.(carbs := value)
    case Fat => g.(fat := value)
  }

  /** The edit panel: the goals being typed in, kept apart from the saved goals until saved. */
  class GoalsEditor {
    var editMode: bool
    var tempGoals: MacroGoals

    constructor (goals: MacroGoals)
      ensures !editMode && tempGoals == goals
    {
      editMode := false;
      tempGoals := goals;
    }

    method Edit()
      modifies this
      ensures editMode && tempGoals == old(tempGoals)
    {
      editMode := true;
    }

    /** Typing in one of the four goal fields. */
    method TypeGoal(m: Macro, t: Text)
      modifies this
      ensures tempGoals == WithGoal(old(tempGoals), m, GoalInput(t))
      ensures editMode == old(editMode)
    {
      tempGoals := WithGoal(tempGoals, m, GoalInput(t));
    }

    /** `handleSave`: the typed goals become the saved goals, all five of them. */
    method Save(tracker: CalorieTracker)
      modifies this, tracker
      ensures tracker.data == old(tracker.data).(macroGoals := old(tempGoals))
      ensures tracker.currentDate == old(tracker.currentDate) && tracker.viewedDate == old(tracker.viewedDate)
      ensures tracker.cache == old(tracker.cache)
      ensures !editMode && tempGoals == old(tempGoals)
    {
      var g := tempGoals;
      MergeFullMacroGoals(tracker.data.macroGoals, g);
      tracker.UpdateMacroGoals(MacroGoalsPatch(Some(g.calories), Some(g.protein), Some(g.carbs),
                                               Some(g.fat), Some(g.fiber)));
      editMode := false;
    }

    /** `handleCancel`: the typed goals are thrown away for the saved ones. */
    method Cancel(tracker: CalorieTracker)
      modifies this
      ensures !editMode && tempGoals == tracker.data.macroGoals
    {
      tempGoals := tracker.data.macroGoals;
      editMode := false;
    }
  }
}
