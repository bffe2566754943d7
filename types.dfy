/** The entities of the tracker (src/types/index.ts). Numbers are reals, dates are day
    numbers, and free-text numeric profile fields are `Text` values. */
module Types {
  import opened Wrappers
  import opened Numbers

  /** A calendar day, as a day number (the program keys days by `YYYY-MM-DD`). */
  type Date = int

  datatype Gender = NoGender | Male | Female

  datatype ActivityLevel = Sedentary | LightlyActive | ModeratelyActive | VeryActive | ExtraActive

  datatype BodyType = Ectomorph | Mesomorph | Endomorph | NoBodyType

  datatype UserInfo = UserInfo(
    age: Text,
    gender: Gender,
    height: Text,
    weight: Text,
    activityLevel: ActivityLevel,
    goalWeight: Option<Text>,
    weeklyGoal: Option<Text>,
    waist: Option<Text>,
    bodyFat: Option<Text>,
    leanMass: Option<Text>,
    bodyType: Option<BodyType>)

  /** `Partial<UserInfo>`: `Some` for every key the update carries. */
  datatype UserInfoPatch = UserInfoPatch(
    age: Option<Text>,
    gender: Option<Gender>,
    height: Option<Text>,
    weight: Option<Text>,
    activityLevel: Option<ActivityLevel>,
    goalWeight: Option<Text>,
    weeklyGoal: Option<Text>,
    waist: Option<Text>,
    bodyFat: Option<Text>,
    leanMass: Option<Text>,
    bodyType: Option<BodyType>)

  datatype MacroGoals = MacroGoals(calories: real, protein: real, carbs: real, fat: real, fiber: real)

  /** `Partial<MacroGoals>`. */
  datatype MacroGoalsPatch = MacroGoalsPatch(
    calories: Option<real>, protein: Option<real>, carbs: Option<real>, fat: Option<real>, fiber: Option<real>)

  datatype Nutrition = Nutrition(
    calories: real, protein: real, carbs: real, fat: real, fiber: real, sugar: real, sodium: real)

  const ZeroNutrition := Nutrition(0.0, 0.0, 0.0, 0.0, 0.0, 0.0, 0.0)

  /** Field-wise sum of two nutrient profiles. */
  function AddNutrition(a: Nutrition, b: Nutrition): Nutrition {
    Nutrition(a.calories + b.calories, a.protein + b.protein, a.carbs + b.carbs, a.fat + b.fat,
              a.fiber + b.fiber, a.sugar + b.sugar, a.sodium + b.sodium)
  }

  /** Every field multiplied by `k`. */
  function ScaleNutrition(n: Nutrition, k: real): Nutrition {
    Nutrition(n.calories * k, n.protein * k, n.carbs * k, n.fat * k, n.fiber * k, n.sugar * k, n.sodium * k)
  }

  /** Every field divided by `k`: the profile of one unit out of `k`. */
  function PerUnit(n: Nutrition, k: real): (r: Nutrition)
    requires k != 0.0
    ensures ScaleNutrition(r, k) == n
  {
    Nutrition(n.calories / k, n.protein / k, n.carbs / k, n.fat / k, n.fiber / k, n.sugar / k, n.sodium / k)
  }

  datatype FoodItem = FoodItem(
    id: int, name: string, calories: real, quantity: real, unit: string, timestamp: string,
    nutrition: Option<Nutrition>, barcode: Option<string>)

  /** `Omit<FoodItem, 'id' | 'timestamp'>`: what callers hand to `addFood`. */
  datatype FoodDraft = FoodDraft(
    name: string, calories: real, quantity: real, unit: string,
    nutrition: Option<Nutrition>, barcode: Option<string>)

  datatype ExerciseEntry = ExerciseEntry(id: int, name: string, calories: real, timestamp: string)

  datatype ExerciseDraft = ExerciseDraft(name: string, calories: real)

  /** A weight entry (`WeightEntry`, value in kg) or a waist entry (`WaistEntry`, value in cm):
      the two records have the same shape. */
  datatype Measurement = Measurement(id: int, value: real, date: Date)

  datatype DailyData = DailyData(foods: seq<FoodItem>, exercises: seq<ExerciseEntry>)

  const EmptyDay := DailyData([], [])

  datatype Difficulty = Easy | Medium | Hard

  datatype RecipeIngredient = RecipeIngredient(
    id: int, name: string, quantity: real, unit: string, nutrition: Nutrition)

  datatype Recipe = Recipe(
    id: int, name: string, description: string, servings: int,
    ingredients: seq<RecipeIngredient>, instructions: seq<string>, totalNutrition: Nutrition,
    prepTime: int, cookTime: int, difficulty: Difficulty, tags: seq<string>, createdAt: string)

  /** `Omit<Recipe, 'id' | 'createdAt'>`. */
  datatype RecipeDraft = RecipeDraft(
    name: string, description: string, servings: int,
    ingredients: seq<RecipeIngredient>, instructions: seq<string>, totalNutrition: Nutrition,
    prepTime: int, cookTime: int, difficulty: Difficulty, tags: seq<string>)

  datatype BarcodeProduct = BarcodeProduct(
    barcode: string, name: string, nutrition: Nutrition, servingSize: real, servingUnit: string)

  datatype AlertKind = GoalAlert | WarningAlert | AchievementAlert | ReminderAlert

  datatype Priority = LowPriority | MediumPriority | HighPriority

  datatype Alert = Alert(
    id: int, kind: AlertKind, title: string, message: string, timestamp: string,
    read: bool, priority: Priority)

  /** `Omit<Alert, 'id' | 'timestamp' | 'read'>`. */
  datatype AlertDraft = AlertDraft(kind: AlertKind, title: string, message: string, priority: Priority)

  /** Everything the tracker keeps for one user. */
  datatype TrackerData = TrackerData(
    userInfo: UserInfo,
    dailyData: map<Date, DailyData>,
    weightHistory: seq<Measurement>,
    waistHistory: seq<Measurement>,
    macroGoals: MacroGoals,
    recipes: seq<Recipe>,
    alerts: seq<Alert>)

  const DefaultUserInfo := UserInfo(Blank, NoGender, Blank, Blank, Sedentary,
                                    None, None, None, None, None, None)

  const DefaultMacroGoals := MacroGoals(2000.0, 150.0, 250.0, 67.0, 25.0)

  const DefaultData := TrackerData(DefaultUserInfo, map[], [], [], DefaultMacroGoals, [], [])
}
