/** The tracker's persisted state and its mutators (`useCalorieTracker`). The pure
    transitions on `TrackerData` say what each mutator does; the `CalorieTracker` class holds
    the state, the current and viewed dates and the calorie cache, and applies them. */
module Tracker {
  import opened Wrappers
  import opened Numbers
  import opened Strings
  import opened Lists
  import opened Types
  import opened CalorieLookup
  import opened Metrics

  /** Data as it comes out of storage: `None` where a field is missing, falsy or (for the
      lists) not an array. */
  datatype StoredData = StoredData(
    userInfo: Option<UserInfo>,
    dailyData: Option<map<Date, DailyData>>,
    weightHistory: Option<seq<Measurement>>,
    waistHistory: Option<seq<Measurement>>,
    macroGoals: Option<MacroGoals>,
    recipes: Option<seq<Recipe>>,
    alerts: Option<seq<Alert>>)

  function OrElse<T>(o: Option<T>, default: T): (r: T)
    ensures o.Some? ==> r == o.value
    ensures o.None? ==> r == default
  {
    if o.Some? then o.value else default
  }

  /** An optional field after a spread: the patch's value when it carries one. */
  function Override<T>(patch: Option<T>, current: Option<T>): (r: Option<T>)
    ensures patch.Some? ==> r == patch
    ensures patch.None? ==> r == current
  {
    if patch.Some? then patch else current
  }

  /** `safeData`: every missing or malformed field replaced by its default. */
  function SafeData(stored: StoredData): (r: TrackerData)
    ensures stored.userInfo.Some? ==> r.userInfo == stored.userInfo.value
    ensures stored.userInfo.None? ==> r.userInfo == DefaultUserInfo
    ensures stored.dailyData.Some? ==> r.dailyData == stored.dailyData.value
    ensures stored.dailyData.None? ==> r.dailyData == map[]
    ensures stored.weightHistory.Some? ==> r.weightHistory == stored.weightHistory.value
    ensures stored.weightHistory.None? ==> r.weightHistory == []
    ensures stored.waistHistory.Some? ==> r.waistHistory == stored.waistHistory.value
    ensures stored.waistHistory.None? ==> r.waistHistory == []
    ensures stored.macroGoals.Some? ==> r.macroGoals == stored.macroGoals.value
    ensures stored.macroGoals.None? ==> r.macroGoals == DefaultMacroGoals
    ensures stored.recipes.Some? ==> r.recipes == stored.recipes.value
    ensures stored.recipes.None? ==> r.recipes == []
    ensures stored.alerts.Some? ==> r.alerts == stored.alerts.value
    ensures stored.alerts.None? ==> r.alerts == []
  {
    TrackerData(
      OrElse(stored.userInfo, DefaultUserInfo),
      OrElse(stored.dailyData, map[]),
      OrElse(stored.weightHistory, []),
      OrElse(stored.waistHistory, []),
      OrElse(stored.macroGoals, DefaultMacroGoals),
      OrElse(stored.recipes, []),
      OrElse(stored.alerts, []))
  }

  /** Storing a well-formed value writes every field. */
  function Store(data: TrackerData): StoredData {
    StoredData(Some(data.userInfo), Some(data.dailyData), Some(data.weightHistory),
               Some(data.waistHistory), Some(data.macroGoals), Some(data.recipes), Some(data.alerts))
  }

  /** Well-formed data passes through the coercion unchanged, and coerced data is well formed. */
  lemma SafeDataRoundTrip(data: TrackerData, stored: StoredData)
    ensures SafeData(Store(data)) == data
    ensures SafeData(Store(SafeData(stored))) == SafeData(stored)
  {
  }

  /** With nothing usable stored, the coercion yields the defaults. */
  lemma SafeDataOfNothing()
    ensures SafeData(StoredData(None, None, None, None, None, None, None)) == DefaultData
  {
  }

  /** `getDailyData(date)`: the day's lists, or empty lists for a day never written. */
  function DayOf(data: TrackerData, date: Date): (d: DailyData)
    ensures date in data.dailyData ==> d == data.dailyData[date]
    ensures date !in data.dailyData ==> d == EmptyDay
  {
    if date in data.dailyData then data.dailyData[date] else EmptyDay
  }

  /** After a reset (or on first use) every day reads as empty. */
  lemma FreshDataHasEmptyDays(date: Date)
    ensures DayOf(DefaultData, date) == EmptyDay
  {
  }

  /** `{ ...prev.userInfo, ...patch }`. */
  function MergeUserInfo(u: UserInfo, p: UserInfoPatch): (r: UserInfo)
    ensures p.age.Some? ==> r.age == p.age.value
    ensures p.age.None? ==> r.age == u.age
    ensures p.gender.Some? ==> r.gender == p.gender.value
    ensures p.gender.None? ==> r.gender == u.gender
    ensures p.height.Some? ==> r.height == p.height.value
    ensures p.height.None? ==> r.height == u.height
    ensures p.weight.Some? ==> r.weight == p.weight.value
    ensures p.weight.None? ==> r.weight == u.weight
    ensures p.activityLevel.Some? ==> r.activityLevel == p.activityLevel.value
    ensures p.activityLevel.None? ==> r.activityLevel == u.activityLevel
    ensures p.goalWeight.Some? ==> r.goalWeight == p.goalWeight
    ensures p.goalWeight.None? ==> r.goalWeight == u.goalWeight
    ensures p.weeklyGoal.Some? ==> r.weeklyGoal == p.weeklyGoal
    ensures p.weeklyGoal.None? ==> r.weeklyGoal == u.weeklyGoal
    ensures p.waist.Some? ==> r.waist == p.waist
    ensures p.waist.None? ==> r.waist == u.waist
    ensures p.bodyFat.Some? ==> r.bodyFat == p.bodyFat
    ensures p.bodyFat.None? ==> r.bodyFat == u.bodyFat
    ensures p.leanMass.Some? ==> r.leanMass == p.leanMass
    ensures p.leanMass.None? ==> r.leanMass == u.leanMass
    ensures p.bodyType.Some? ==> r.bodyType == p.bodyType
    ensures p.bodyType.None? ==> r.bodyType == u.bodyType
  {
    UserInfo(
      OrElse(p.age, u.age), OrElse(p.gender, u.gender), OrElse(p.height, u.height),
      OrElse(p.weight, u.weight), OrElse(p.activityLevel, u.activityLevel),
      Override(p.goalWeight, u.goalWeight),
      Override(p.weeklyGoal, u.weeklyGoal),
      Override(p.waist, u.waist),
      Override(p.bodyFat, u.bodyFat),
      Override(p.leanMass, u.leanMass),
      Override(p.bodyType, u.bodyType))
  }

  const NoUserInfoChange := UserInfoPatch(None, None, None, None, None, None, None, None, None, None, None)

  /** An empty patch changes nothing, and applying a patch twice is applying it once. */
  lemma MergeUserInfoLaws(u: UserInfo, p: UserInfoPatch)
    ensures MergeUserInfo(u, NoUserInfoChange) == u
    ensures MergeUserInfo(MergeUserInfo(u, p), p) == MergeUserInfo(u, p)
  {
  }

  /** `{ ...prev.macroGoals, ...goals }`. */
  function MergeMacroGoals(g: MacroGoals, p: MacroGoalsPatch): (r: MacroGoals)
    ensures p.calories.Some? ==> r.calories == p.calories.value
    ensures p.calories.None? ==> r.calories == g.calories
    ensures p.protein.Some? ==> r.protein == p.protein.value
    ensures p.protein.None? ==> r.protein == g.protein
    ensures p.carbs.Some? ==> r.carbs == p.carbs.value
    ensures p.carbs.None? ==> r.carbs == g.carbs
    ensures p.fat.Some? ==> r.fat == p.fat.value
    ensures p.fat.None? ==> r.fat == g.fat
    ensures p.fiber.Some? ==> r.fiber == p.fiber.value
    ensures p.fiber.None? ==> r.fiber == g.fiber
  {
    MacroGoals(OrElse(p.calories, g.calories), OrElse(p.protein, g.protein),
               OrElse(p.carbs, g.carbs), OrElse(p.fat, g.fat), OrElse(p.fiber, g.fiber))
  }

  /** Saving a complete set of goals replaces the old goals entirely. */
  lemma MergeFullMacroGoals(g: MacroGoals, n: MacroGoals)
    ensures MergeMacroGoals(g, MacroGoalsPatch(Some(n.calories), Some(n.protein), Some(n.carbs),
                                               Some(n.fat), Some(n.fiber))) == n
  {
  }

  /** The day's foods without those carrying `id`. */
  function FoodsWithout(foods: seq<FoodItem>, id: int): seq<FoodItem> {
    Filter(foods, (f: FoodItem) => f.id != id)
  }

  function ExercisesWithout(exercises: seq<ExerciseEntry>, id: int): seq<ExerciseEntry> {
    Filter(exercises, (e: ExerciseEntry) => e.id != id)
  }

  function MeasurementsWithout(history: seq<Measurement>, id: int): seq<Measurement> {
    Filter(history, (m: Measurement) => m.id != id)
  }

  function RecipesWithout(recipes: seq<Recipe>, id: int): seq<Recipe> {
    Filter(recipes, (r: Recipe) => r.id != id)
  }

  /** `{ ...food, id, timestamp }`. */
  function NewFood(draft: FoodDraft, id: int, timestamp: string): FoodItem {
    FoodItem(id, draft.name, draft.calories, draft.quantity, draft.unit, timestamp,
             draft.nutrition, draft.barcode)
  }

  function NewExercise(draft: ExerciseDraft, id: int, timestamp: string): ExerciseEntry {
    ExerciseEntry(id, draft.name, draft.calories, timestamp)
  }

  /** `addFood` on `date`: one entry appended at the end of that day's foods. */
  function AddFoodOn(data: TrackerData, date: Date, food: FoodItem): (r: TrackerData)
    ensures date in r.dailyData
    ensures DayOf(r, date).foods == DayOf(data, date).foods + [food]
    ensures DayOf(r, date).exercises == DayOf(data, date).exercises
    ensures forall d :: d != date ==> DayOf(r, d) == DayOf(data, d)
    ensures r.(dailyData := data.dailyData) == data
  {
    var day := DayOf(data, date);
    data.(dailyData := data.dailyData[date := day.(foods := day.foods + [food])])
  }

  /** `removeFood(date, id)`: exactly the entries with that id leave the day's foods. The day
      is written even if it was absent. */
  function RemoveFoodOn(data: TrackerData, date: Date, id: int): (r: TrackerData)
    ensures date in r.dailyData
    ensures forall f :: f in DayOf(r, date).foods <==> f in DayOf(data, date).foods && f.id != id
    ensures DayOf(r, date).exercises == DayOf(data, date).exercises
    ensures forall d :: d != date ==> DayOf(r, d) == DayOf(data, d)
    ensures r.(dailyData := data.dailyData) == data
  {
    var day := DayOf(data, date);
    data.(dailyData := data.dailyData[date := day.(foods := FoodsWithout(day.foods, id))])
  }

  /** `addExercise` on `date`: one entry appended at the end of that day's exercises. */
  function AddExerciseOn(data: TrackerData, date: Date, exercise: ExerciseEntry): (r: TrackerData)
    ensures date in r.dailyData
    ensures DayOf(r, date).exercises == DayOf(data, date).exercises + [exercise]
    ensures DayOf(r, date).foods == DayOf(data, date).foods
    ensures forall d :: d != date ==> DayOf(r, d) == DayOf(data, d)
    ensures r.(dailyData := data.dailyData) == data
  {
    var day := DayOf(data, date);
    data.(dailyData := data.dailyData[date := day.(exercises := day.exercises + [exercise])])
  }

  /** `removeExercise(date, id)`. */
  function RemoveExerciseOn(data: TrackerData, date: Date, id: int): (r: TrackerData)
    ensures date in r.dailyData
    ensures forall e :: e in DayOf(r, date).exercises <==> e in DayOf(data, date).exercises && e.id != id
    ensures DayOf(r, date).foods == DayOf(data, date).foods
    ensures forall d :: d != date ==> DayOf(r, d) == DayOf(data, d)
    ensures r.(dailyData := data.dailyData) == data
  {
    var day := DayOf(data, date);
    data.(dailyData := data.dailyData[date := day.(exercises := ExercisesWithout(day.exercises, id))])
  }

  /** Removing from a day that was never written creates it, with empty lists. */
  lemma RemoveFromAbsentDayCreatesIt(data: TrackerData, date: Date, id: int)
    requires date !in data.dailyData
    ensures RemoveFoodOn(data, date, id).dailyData == data.dailyData[date := EmptyDay]
    ensures RemoveExerciseOn(data, date, id).dailyData == data.dailyData[date := EmptyDay]
  {
  }

  /** Removing keeps the remaining foods in their order: the removal of a list split in two
      is the two removals put together. */
  lemma RemoveFoodKeepsOrder(foods: seq<FoodItem>, more: seq<FoodItem>, id: int)
    ensures FoodsWithout(foods + more, id) == FoodsWithout(foods, id) + FoodsWithout(more, id)
  {
    FilterAppend(foods, more, (f: FoodItem) => f.id != id);
  }

  /** Adding a food with a fresh id and removing that id restores the day. */
  lemma {:induction false} AddThenRemoveFood(data: TrackerData, date: Date, food: FoodItem)
    requires forall i :: 0 <= i < |DayOf(data, date).foods| ==> DayOf(data, date).foods[i].id != food.id
    ensures DayOf(RemoveFoodOn(AddFoodOn(data, date, food), date, food.id), date) == DayOf(data, date)
  {
    var foods := DayOf(data, date).foods;
    var p := (f: FoodItem) => f.id != food.id;
    FilterAppend(foods, [food], p);
    FilterKeepsAll(foods, p);
    assert Filter([food], p) == [];
  }

  /** `addWeightEntry(w)` on `date`: the entry is appended and the profile's weight becomes `w`. */
  function AddWeightOn(data: TrackerData, date: Date, weight: real, id: int): TrackerData {
    data.(weightHistory := data.weightHistory + [Measurement(id, weight, date)],
          userInfo := data.userInfo.(weight := Num(weight)))
  }

  /** `removeWeightEntry(id)`: the profile is left alone. */
  function RemoveWeightOn(data: TrackerData, id: int): TrackerData {
    data.(weightHistory := MeasurementsWithout(data.weightHistory, id))
  }

  /** `addWaistEntry(w)` on `date`: the entry is appended and the profile's waist becomes `w`. */
  function AddWaistOn(data: TrackerData, date: Date, waist: real, id: int): TrackerData {
    data.(waistHistory := data.waistHistory + [Measurement(id, waist, date)],
          userInfo := data.userInfo.(waist := Some(Num(waist))))
  }

  function RemoveWaistOn(data: TrackerData, id: int): TrackerData {
    data.(waistHistory := MeasurementsWithout(data.waistHistory, id))
  }

  /** A logged weight is the weight the metrics are computed from; nothing but the history and
      that field changes. */
  lemma AddWeightFeedsMetrics(data: TrackerData, date: Date, weight: real, id: int)
    ensures var r := AddWeightOn(data, date, weight, id);
      && |r.weightHistory| == |data.weightHistory| + 1
      && r.weightHistory[..|data.weightHistory|] == data.weightHistory
      && r.weightHistory[|r.weightHistory| - 1] == Measurement(id, weight, date)
      && r.userInfo == data.userInfo.(weight := Num(weight))
      && (Read(r.userInfo).Some? ==> Read(r.userInfo).value.weight == weight)
      && r.(weightHistory := data.weightHistory, userInfo := data.userInfo) == data
  {
    assert (data.weightHistory + [Measurement(id, weight, date)])[..|data.weightHistory|] == data.weightHistory;
  }

  /** A logged waist measurement is appended after the old history and becomes the profile's
      waist; no other profile field and nothing else changes. */
  lemma AddWaistFeedsProfile(data: TrackerData, date: Date, waist: real, id: int)
    ensures var r := AddWaistOn(data, date, waist, id);
      && |r.waistHistory| == |data.waistHistory| + 1
      && r.waistHistory[..|data.waistHistory|] == data.waistHistory
      && r.waistHistory[|r.waistHistory| - 1] == Measurement(id, waist, date)
      && r.userInfo == data.userInfo.(waist := Some(Num(waist)))
      && r.(waistHistory := data.waistHistory, userInfo := data.userInfo) == data
  {
    assert (data.waistHistory + [Measurement(id, waist, date)])[..|data.waistHistory|] == data.waistHistory;
  }

  /** Removing a weight entry leaves the profile's weight as it was: after logging `w` and
      removing that entry, the profile still says `w`. */
  lemma {:induction false} RemoveWeightKeepsProfile(data: TrackerData, date: Date, weight: real, id: int)
    requires forall i :: 0 <= i < |data.weightHistory| ==> data.weightHistory[i].id != id
    ensures var r := RemoveWeightOn(AddWeightOn(data, date, weight, id), id);
      r.weightHistory == data.weightHistory && r.userInfo.weight == Num(weight)
  {
    var p := (m: Measurement) => m.id != id;
    FilterAppend(data.weightHistory, [Measurement(id, weight, date)], p);
    FilterKeepsAll(data.weightHistory, p);
    assert Filter([Measurement(id, weight, date)], p) == [];
  }

  /** Removing by id drops exactly the entries with that id, and only from the history. */
  lemma RemoveMeasurementDropsId(data: TrackerData, id: int)
    ensures var r := RemoveWeightOn(data, id);
      && r.userInfo == data.userInfo
      && (forall m :: m in r.weightHistory <==> m in data.weightHistory && m.id != id)
    ensures var r := RemoveWaistOn(data, id);
      && r.userInfo == data.userInfo
      && (forall m :: m in r.waistHistory <==> m in data.waistHistory && m.id != id)
  {
    var p := (m: Measurement) => m.id != id;
    forall m
      ensures m in Filter(data.weightHistory, p) <==> m in data.weightHistory && m.id != id
      ensures m in Filter(data.waistHistory, p) <==> m in data.waistHistory && m.id != id
    {
      FilterMember(data.weightHistory, p, m);
      FilterMember(data.waistHistory, p, m);
    }
  }

  /** Membership after a filter. */
  lemma FilterMember<T>(s: seq<T>, p: T -> bool, x: T)
    ensures x in Filter(s, p) <==> x in s && p(x)
  {
    if x in s && p(x) {
      var i :| 0 <= i < |s| && s[i] == x;
    }
    if x in Filter(s, p) {
      var i :| 0 <= i < |Filter(s, p)| && Filter(s, p)[i] == x;
    }
  }

  /** `addRecipe`: `{ ...recipe, id, createdAt }` appended. */
  function NewRecipe(draft: RecipeDraft, id: int, createdAt: string): Recipe {
    Recipe(id, draft.name, draft.description, draft.servings, draft.ingredients,
           draft.instructions, draft.totalNutrition, draft.prepTime, draft.cookTime,
           draft.difficulty, draft.tags, createdAt)
  }

  /** `addAlert`: a new alert is always unread. */
  function NewAlert(draft: AlertDraft, id: int, timestamp: string): (a: Alert)
    ensures !a.read && a.id == id
  {
    Alert(id, draft.kind, draft.title, draft.message, timestamp, false, draft.priority)
  }

  /** `markAlertAsRead(id)`: same alerts in the same order; only the `read` flag of the
      alerts carrying `id` changes, and it becomes true. */
  function MarkRead(alerts: seq<Alert>, id: int): (r: seq<Alert>)
    ensures |r| == |alerts|
    ensures forall i :: 0 <= i < |alerts| ==> r[i].(read := alerts[i].read) == alerts[i]
    ensures forall i :: 0 <= i < |alerts| ==> r[i].read == (alerts[i].read || alerts[i].id == id)
  {
    Map(alerts, (a: Alert) => if a.id == id then a.(read := true) else a)
  }

  /** Marking the same alert twice is marking it once. */
  lemma MarkReadIdempotent(alerts: seq<Alert>, id: int)
    ensures MarkRead(MarkRead(alerts, id), id) == MarkRead(alerts, id)
  {
  }

  /** `addFoodFromRecipe`: one serving's nutrition, its calories rounded, eaten `servings` times. */
  function FoodFromRecipe(recipe: Recipe, servings: real): (f: FoodDraft)
    requires recipe.servings != 0
    ensures f.name == recipe.name + " (Receita)" && f.quantity == servings && f.unit == "porção"
    ensures f.nutrition.Some?
    ensures ScaleNutrition(f.nutrition.value, recipe.servings as real) == recipe.totalNutrition
    ensures Abs(f.calories - f.nutrition.value.calories) <= 0.5
    ensures f.barcode.None?
  {
    var perServing := PerUnit(recipe.totalNutrition, recipe.servings as real);
    FoodDraft(recipe.name + " (Receita)", Round(perServing.calories) as real, servings, "porção",
              Some(perServing), None)
  }

  /** `addFoodFromBarcode`: nutrition and calories per unit of the serving. */
  function FoodFromBarcode(product: BarcodeProduct, quantity: real): (f: FoodDraft)
    requires product.servingSize != 0.0
    ensures f.name == product.name && f.quantity == quantity && f.unit == product.servingUnit
    ensures f.nutrition.Some?
    ensures ScaleNutrition(f.nutrition.value, product.servingSize) == product.nutrition
    ensures Abs(f.calories - f.nutrition.value.calories) <= 0.5
    ensures f.barcode == Some(product.barcode)
  {
    var perUnit := PerUnit(product.nutrition, product.servingSize);
    FoodDraft(product.name, Round(perUnit.calories) as real, quantity, product.servingUnit,
              Some(perUnit), Some(product.barcode))
  }

  /** The cache agrees with the deterministic search in the table for every name it holds. */
  ghost predicate CacheAgrees(cache: map<string, int>, table: Table)
    requires NonNegativeValues(table)
  {
    forall name :: name in cache ==> cache[name] == Search(table, name)
  }

  /** Caching the search's answer keeps the cache in agreement with the search. */
  lemma CacheAgreesAfterLookup(cache: map<string, int>, table: Table, name: string)
    requires NonNegativeValues(table) && CacheAgrees(cache, table)
    ensures CacheAgrees(cache[name := Search(table, name)], table)
  {
  }

  /** The tracker: the persisted data, today's date, the date being viewed in the history,
      and the calorie cache shared by every search. */
  class CalorieTracker {
    var data: TrackerData
    var currentDate: Date
    var viewedDate: Date
    var cache: map<string, int>
    /** The food table the search consults. */
    const foods: Table

    ghost predicate Valid()
      reads this
    {
      NonNegativeValues(foods) && CacheAgrees(cache, foods)
    }

    /** The hook starts from what storage holds (or the defaults), on today's date. */
    constructor (stored: Option<StoredData>, today: Date)
      ensures Valid()
      ensures data == (if stored.Some? then SafeData(stored.value) else DefaultData)
      ensures currentDate == today && viewedDate == today && cache == map[]
      ensures foods == FoodDatabase
    {
      FoodDatabaseWellFormed();
      foods := FoodDatabase;
      data := if stored.Some? then SafeData(stored.value) else DefaultData;
      currentDate := today;
      viewedDate := today;
      cache := map[];
    }

    /** `getDailyData(date)`. */
    function GetDailyData(date: Date): (d: DailyData)
      reads this
      ensures date !in data.dailyData ==> d == EmptyDay
    {
      DayOf(data, date)
    }

    /** `calculations`. */
    function Calculations(): (c: Metrics.Calculations)
      reads this
      ensures c.bmiCategory == NoCategory <==> Read(data.userInfo).None?
    {
      Calculate(data.userInfo)
    }

    /** The once-a-minute refresh of the current date. */
    method SetCurrentDate(today: Date)
      modifies this
      ensures currentDate == today
      ensures data == old(data) && viewedDate == old(viewedDate) && cache == old(cache)
    {
      currentDate := today;
    }

    method SetViewedDate(date: Date)
      modifies this
      ensures viewedDate == date
      ensures data == old(data) && currentDate == old(currentDate) && cache == old(cache)
    {
      viewedDate := date;
    }

    method UpdateUserInfo(patch: UserInfoPatch)
      modifies this
      ensures data == old(data).(userInfo := MergeUserInfo(old(data).userInfo, patch))
      ensures currentDate == old(currentDate) && viewedDate == old(viewedDate) && cache == old(cache)
    {
      data := data.(userInfo := MergeUserInfo(data.userInfo, patch));
    }

    method UpdateMacroGoals(patch: MacroGoalsPatch)
      modifies this
      ensures data == old(data).(macroGoals := MergeMacroGoals(old(data).macroGoals, patch))
      ensures currentDate == old(currentDate) && viewedDate == old(viewedDate) && cache == old(cache)
    {
      data := data.(macroGoals := MergeMacroGoals(data.macroGoals, patch));
    }

    /** `addFood`: the id and timestamp stand for `Date.now()` and the ISO time. */
    method AddFood(draft: FoodDraft, id: int, timestamp: string)
      modifies this
      ensures data == AddFoodOn(old(data), currentDate, NewFood(draft, id, timestamp))
      ensures currentDate == old(currentDate) && viewedDate == old(viewedDate) && cache == old(cache)
    {
      var day := GetDailyData(currentDate);
      data := data.(dailyData := data.dailyData[currentDate := day.(foods := day.foods + [NewFood(draft, id, timestamp)])]);
    }

    method AddFoodFromBarcode(product: BarcodeProduct, quantity: real, id: int, timestamp: string)
      requires product.servingSize != 0.0
      modifies this
      ensures data == AddFoodOn(old(data), currentDate, NewFood(FoodFromBarcode(product, quantity), id, timestamp))
      ensures currentDate == old(currentDate) && viewedDate == old(viewedDate) && cache == old(cache)
    {
      AddFood(FoodFromBarcode(product, quantity), id, timestamp);
    }

    method AddFoodFromRecipe(recipe: Recipe, servings: real, id: int, timestamp: string)
      requires recipe.servings != 0
      modifies this
      ensures data == AddFoodOn(old(data), currentDate, NewFood(FoodFromRecipe(recipe, servings), id, timestamp))
      ensures currentDate == old(currentDate) && viewedDate == old(viewedDate) && cache == old(cache)
    {
      AddFood(FoodFromRecipe(recipe, servings), id, timestamp);
    }

    method RemoveFood(date: Date, id: int)
      modifies this
      ensures data == RemoveFoodOn(old(data), date, id)
      ensures currentDate == old(currentDate) && viewedDate == old(viewedDate) && cache == old(cache)
    {
      var day := GetDailyData(date);
      data := data.(dailyData := data.dailyData[date := day.(foods := FoodsWithout(day.foods, id))]);
    }

    method AddExercise(draft: ExerciseDraft, id: int, timestamp: string)
      modifies this
      ensures data == AddExerciseOn(old(data), currentDate, NewExercise(draft, id, timestamp))
      ensures currentDate == old(currentDate) && viewedDate == old(viewedDate) && cache == old(cache)
    {
      var day := GetDailyData(currentDate);
      data := data.(dailyData := data.dailyData[currentDate := day.(exercises := day.exercises + [NewExercise(draft, id, timestamp)])]);
    }

    method RemoveExercise(date: Date, id: int)
      modifies this
      ensures data == RemoveExerciseOn(old(data), date, id)
      ensures currentDate == old(currentDate) && viewedDate == old(viewedDate) && cache == old(cache)
    {
      var day := GetDailyData(date);
      data := data.(dailyData := data.dailyData[date := day.(exercises := ExercisesWithout(day.exercises, id))]);
    }

    method AddWeightEntry(weight: real, id: int)
      modifies this
      ensures data == AddWeightOn(old(data), currentDate, weight, id)
      ensures currentDate == old(currentDate) && viewedDate == old(viewedDate) && cache == old(cache)
    {
      data := AddWeightOn(data, currentDate, weight, id);
    }

    method RemoveWeightEntry(id: int)
      modifies this
      ensures data == RemoveWeightOn(old(data), id)
      ensures currentDate == old(currentDate) && viewedDate == old(viewedDate) && cache == old(cache)
    {
      data := data.(weightHistory := MeasurementsWithout(data.weightHistory, id));
    }

    method AddWaistEntry(waist: real, id: int)
      modifies this
      ensures data == AddWaistOn(old(data), currentDate, waist, id)
      ensures currentDate == old(currentDate) && viewedDate == old(viewedDate) && cache == old(cache)
    {
      data := AddWaistOn(data, currentDate, waist, id);
    }

    method RemoveWaistEntry(id: int)
      modifies this
      ensures data == RemoveWaistOn(old(data), id)
      ensures currentDate == old(currentDate) && viewedDate == old(viewedDate) && cache == old(cache)
    {
      data := data.(waistHistory := MeasurementsWithout(data.waistHistory, id));
    }

    method AddRecipe(draft: RecipeDraft, id: int, createdAt: string)
      modifies this
      ensures data == old(data).(recipes := old(data).recipes + [NewRecipe(draft, id, createdAt)])
      ensures currentDate == old(currentDate) && viewedDate == old(viewedDate) && cache == old(cache)
    {
      data := data.(recipes := data.recipes + [NewRecipe(draft, id, createdAt)]);
    }

    method RemoveRecipe(id: int)
      modifies this
      ensures data == old(data).(recipes := RecipesWithout(old(data).recipes, id))
      ensures currentDate == old(currentDate) && viewedDate == old(viewedDate) && cache == old(cache)
    {
      data := data.(recipes := RecipesWithout(data.recipes, id));
    }

    method AddAlert(draft: AlertDraft, id: int, timestamp: string)
      modifies this
      ensures data == old(data).(alerts := old(data).alerts + [NewAlert(draft, id, timestamp)])
      ensures currentDate == old(currentDate) && viewedDate == old(viewedDate) && cache == old(cache)
    {
      data := data.(alerts := data.alerts + [NewAlert(draft, id, timestamp)]);
    }

    method MarkAlertAsRead(id: int)
      modifies this
      ensures data == old(data).(alerts := MarkRead(old(data).alerts, id))
      ensures currentDate == old(currentDate) && viewedDate == old(viewedDate) && cache == old(cache)
    {
      data := data.(alerts := MarkRead(data.alerts, id));
    }

    /** `searchCaloriesWithAI`: answers from the cache when the normalised name is there,
        otherwise runs the lookup and caches its answer. The answer is always positive. */
    method SearchCalories(foodName: string) returns (calories: int)
      requires Valid()
      modifies this
      ensures Valid()
      ensures calories == Search(foods, Normalize(foodName)) && calories > 0
      ensures Normalize(foodName) in old(cache) ==> calories == old(cache)[Normalize(foodName)]
      ensures Normalize(foodName) in old(cache) ==> cache == old(cache)
      ensures Normalize(foodName) !in old(cache) ==> cache == old(cache)[Normalize(foodName) := calories]
      ensures data == old(data) && currentDate == old(currentDate) && viewedDate == old(viewedDate)
    {
      var name := Normalize(foodName);
      if name in cache {
        calories := cache[name];
      } else {
        calories := SearchAndCache(name);
      }
    }

    /** A name missing from the cache: the table search runs and its answer is cached. */
    method SearchAndCache(name: string) returns (calories: int)
      requires Valid() && name !in cache
      modifies this
      ensures Valid()
      ensures calories == Search(foods, name)
      ensures cache == old(cache)[name := calories]
      ensures data == old(data) && currentDate == old(currentDate) && viewedDate == old(viewedDate)
    {
      calories := LookupCalories(foods, name);
      CacheAgreesAfterLookup(cache, foods, name);
      cache := cache[name := calories];
    }

    /** `resetData`: the defaults again, and an empty cache. */
    method ResetData()
      requires Valid()
      modifies this
      ensures Valid()
      ensures data == DefaultData && cache == map[]
      ensures currentDate == old(currentDate) && viewedDate == old(viewedDate)
    {
      data := DefaultData;
      cache := map[];
    }
  }

  /** A second search for the same food, spelled with different case or surrounding spaces,
      finds the cached answer of the first. */
  method SearchTwice(tracker: CalorieTracker, first: string, second: string)
      returns (a: int, b: int)
    requires tracker.Valid() && Normalize(first) == Normalize(second)
    modifies tracker
    ensures a == b
    ensures Normalize(first) in old(tracker.cache) ==> tracker.cache == old(tracker.cache)
    ensures Normalize(first) !in old(tracker.cache) ==>
      tracker.cache == old(tracker.cache)[Normalize(first) := a]
  {
    a := tracker.SearchCalories(first);
    b := tracker.SearchCalories(second);
  }
}
