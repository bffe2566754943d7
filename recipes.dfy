/** The recipe book (src/components/Recipes.tsx): the creation form with its ingredient and
    instruction lists, the nutrition total, the submit check and clean-up, the search filter,
    and the "add to diary" prompt. */
module Recipes {
  import opened Wrappers
  import opened Numbers
  import opened Strings
  import opened Lists
  import opened Types
  import Tracker

  /** An ingredient row of the form: a recipe ingredient without its id. */
  datatype IngredientDraft = IngredientDraft(name: string, quantity: real, unit: string, nutrition: Nutrition)

  /** The row `addIngredient` appends and the form starts with. */
  const BlankIngredient := IngredientDraft("", 0.0, "g", ZeroNutrition)

  /** The form's other fields; `tags` is the raw comma-separated text. */
  datatype FormData = FormData(
    name: string, description: string, servings: int, prepTime: int, cookTime: int,
    difficulty: Difficulty, tags: string, instructions: seq<string>)

  const BlankForm := FormData("", "", 1, 0, 0, Easy, "", [""])

  datatype Nutrient = Calories | Protein | Carbs | Fat | Fiber | Sugar | Sodium

  function Get(n: Nutrition, k: Nutrient): real {
    match k
    case Calories => n.calories
    case Protein => n.protein
    case Carbs => n.carbs
    case Fat => n.fat
    case Fiber => n.fiber
    case Sugar => n.sugar
    case Sodium => n.sodium
  }

  /** `{ ...nutrition, [child]: value }`: sets one nutrient and keeps the others. */
  function With(n: Nutrition, k: Nutrient, v: real): (r: Nutrition)
    ensures Get(r, k) == v
    ensures forall other: Nutrient :: other != k ==> Get(r, other) == Get(n, other)
  {
    match k
    case Calories => n.(calories := v)
    case Protein => n.(protein := v)
    case Carbs => n.(carbs := v)
    case Fat => n.(fat := v)
    case Fiber => n.(fiber := v)
    case Sugar => n.(sugar := v)
    case Sodium => n.(sodium := v)
  }

  /** The fields `updateIngredient` is called with; `NutritionField` is a dotted field such as
      `nutrition.calories`. */
  datatype IngredientField =
    | NameField(name: string)
    | QuantityField(quantity: real)
    | UnitField(unit: string)
    | NutritionField(nutrient: Nutrient, amount: real)

  /** One ingredient with one field replaced; a dotted field replaces only that nutrient. */
  function SetField(ing: IngredientDraft, field: IngredientField): (r: IngredientDraft)
    ensures field.NameField? ==> r == ing.(name := field.name)
    ensures field.QuantityField? ==> r == ing.(quantity := field.quantity)
    ensures field.UnitField? ==> r == ing.(unit := field.unit)
    ensures field.NutritionField? ==>
      && r.name == ing.name && r.quantity == ing.quantity && r.unit == ing.unit
      && Get(r.nutrition, field.nutrient) == field.amount
      && forall other: Nutrient :: other != field.nutrient ==> Get(r.nutrition, other) == Get(ing.nutrition, other)
  {
    match field
    case NameField(v) => ing.(name := v)
    case QuantityField(v) => ing.(quantity := v)
    case UnitField(v) => ing.(unit := v)
    case NutritionField(k, v) => ing.(nutrition := With(ing.nutrition, k, v))
  }

  /** The quantity input: `parseFloat(text) || 0`. */
  function QuantityInput(t: Text): (r: real)
    ensures t.Num? ==> r == t.value
    ensures !t.Num? ==> r == 0.0
  {
    match ParseFloat(t)
    case Some(v) => v
    case None => 0.0
  }

  /** The servings input: `parseInt(text) || 1`, so a recipe never has 0 servings. */
  function ServingsInput(t: Text): (r: int)
    ensures r != 0
    ensures t.Num? && t.value >= 1.0 ==> r >= 1 && r as real <= t.value < r as real + 1.0
    ensures !t.Num? || (-1.0 < t.value < 1.0) ==> r == 1
  {
    match ParseInt(t)
    case Some(n) => if n != 0 then n else 1
    case None => 1
  }

  /** `filter((_, i) => i !== index)`: drops the element at `index`, if there is one. */
  function RemoveAt<T>(s: seq<T>, index: int): (r: seq<T>)
    ensures 0 <= index < |s| ==> |r| == |s| - 1
    ensures 0 <= index < |s| ==> forall k :: 0 <= k < index ==> r[k] == s[k]
    ensures 0 <= index < |s| ==> forall k :: index <= k < |r| ==> r[k] == s[k + 1]
    ensures !(0 <= index < |s|) ==> r == s
  {
    if 0 <= index < |s| then s[..index] + s[index + 1..] else s
  }

  /** Removing what was inserted at an index gives back the list. */
  lemma RemoveAtUndoesInsert<T>(s: seq<T>, index: nat, x: T)
    requires index <= |s|
    ensures RemoveAt(s[..index] + [x] + s[index..], index) == s
  {
    var t := s[..index] + [x] + s[index..];
    assert t[..index] == s[..index];
    assert t[index + 1..] == s[index..];
  }

  /** What one ingredient adds to the total: its nutrition times its quantity. */
  function Contribution(ing: IngredientDraft): Nutrition {
    ScaleNutrition(ing.nutrition, ing.quantity)
  }

  /** The left fold `calculateTotalNutrition` performs, from the running total `acc`. */
  function TotalFrom(acc: Nutrition, ings: seq<IngredientDraft>): Nutrition
    decreases ings
  {
    if ings == [] then acc else TotalFrom(AddNutrition(acc, Contribution(ings[0])), ings[1..])
  }

  /** `calculateTotalNutrition`: the nutrients of all ingredients, each times its quantity. */
  function TotalNutrition(ings: seq<IngredientDraft>): (r: Nutrition)
    ensures ings == [] ==> r == ZeroNutrition
  {
    TotalFrom(ZeroNutrition, ings)
  }

  /** A running total can be pulled out of the fold. */
  lemma {:induction false} TotalFromShift(acc: Nutrition, ings: seq<IngredientDraft>)
    ensures TotalFrom(acc, ings) == AddNutrition(acc, TotalNutrition(ings))
    decreases ings
  {
    if ings != [] {
      var c := Contribution(ings[0]);
      TotalFromShift(AddNutrition(acc, c), ings[1..]);
      TotalFromShift(AddNutrition(ZeroNutrition, c), ings[1..]);
    }
  }

  /** The reference definition of one field of the total: the sum over the ingredients of
      that nutrient times the quantity. */
  function FieldTotal(ings: seq<IngredientDraft>, k: Nutrient): real {
    if ings == [] then 0.0 else Get(ings[0].nutrition, k) * ings[0].quantity + FieldTotal(ings[1..], k)
  }

  lemma GetAdd(a: Nutrition, b: Nutrition, k: Nutrient)
    ensures Get(AddNutrition(a, b), k) == Get(a, k) + Get(b, k)
  {
  }

  lemma GetContribution(ing: IngredientDraft, k: Nutrient)
    ensures Get(Contribution(ing), k) == Get(ing.nutrition, k) * ing.quantity
  {
  }

  /** The total is the first ingredient's contribution plus the total of the rest. */
  lemma TotalStep(ings: seq<IngredientDraft>)
    requires ings != []
    ensures TotalNutrition(ings) == AddNutrition(Contribution(ings[0]), TotalNutrition(ings[1..]))
  {
    var c := Contribution(ings[0]);
    assert AddNutrition(ZeroNutrition, c) == c;
    TotalFromShift(c, ings[1..]);
  }

  /** One field of the total is the first ingredient's share plus that field of the rest. */
  lemma FieldStep(ings: seq<IngredientDraft>, k: Nutrient)
    requires ings != []
    ensures Get(TotalNutrition(ings), k) ==
      Get(ings[0].nutrition, k) * ings[0].quantity + Get(TotalNutrition(ings[1..]), k)
  {
    var c, rest := Contribution(ings[0]), TotalNutrition(ings[1..]);
    TotalStep(ings);
    calc {
      Get(TotalNutrition(ings), k);
      Get(AddNutrition(c, rest), k);
      { GetAdd(c, rest, k); }
      Get(c, k) + Get(rest, k);
      { GetContribution(ings[0], k); }
      Get(ings[0].nutrition, k) * ings[0].quantity + Get(rest, k);
    }
  }

  /** Each field of the total is the sum of that nutrient times quantity. */
  lemma {:induction false} TotalIsFieldSum(ings: seq<IngredientDraft>, k: Nutrient)
    ensures Get(TotalNutrition(ings), k) == FieldTotal(ings, k)
  {
    if ings != [] {
      FieldStep(ings, k);
      TotalIsFieldSum(ings[1..], k);
    }
  }

  /** The total of two ingredient lists is the sum of their totals. */
  lemma {:induction false} TotalAppend(a: seq<IngredientDraft>, b: seq<IngredientDraft>)
    ensures TotalNutrition(a + b) == AddNutrition(TotalNutrition(a), TotalNutrition(b))
  {
    if a == [] {
      assert a + b == b;
    } else {
      var c := Contribution(a[0]);
      assert (a + b)[0] == a[0] && (a + b)[1..] == a[1..] + b;
      TotalFromShift(AddNutrition(ZeroNutrition, c), a[1..] + b);
      TotalFromShift(AddNutrition(ZeroNutrition, c), a[1..]);
      TotalAppend(a[1..], b);
    }
  }

  predicate NotBlank(s: string) {
    !IsBlank(s)
  }

  /** `instructions.filter(i => i.trim())`. */
  function FilledInstructions(instructions: seq<string>): (r: seq<string>)
    ensures forall i :: 0 <= i < |r| ==> r[i] in instructions && !IsBlank(r[i])
    ensures forall i :: 0 <= i < |instructions| && !IsBlank(instructions[i]) ==> instructions[i] in r
  {
    Filter(instructions, NotBlank)
  }

  /** The submit check: a name that is not blank, at least one ingredient, and at least one
      instruction that is not blank. */
  predicate SubmissionOk(form: FormData, ings: seq<IngredientDraft>) {
    !IsBlank(form.name) && |ings| > 0 && FilledInstructions(form.instructions) != []
  }

  /** A rejected submission has a blank name, no ingredients, or only blank instructions. */
  lemma RejectionReasons(form: FormData, ings: seq<IngredientDraft>)
    ensures !SubmissionOk(form, ings) <==>
      IsBlank(form.name) || ings == [] ||
      forall i :: 0 <= i < |form.instructions| ==> IsBlank(form.instructions[i])
  {
    if !IsBlank(form.name) && ings != [] {
      var r := FilledInstructions(form.instructions);
      if r != [] {
        assert r[0] in form.instructions;
      }
    }
  }

  /** `ingredients.map((ing, index) => ({ ...ing, id: index + 1 }))`. */
  function NumberIngredients(ings: seq<IngredientDraft>): (r: seq<RecipeIngredient>)
    ensures |r| == |ings|
    ensures forall i :: 0 <= i < |r| ==> r[i].id == i + 1
    ensures forall i :: 0 <= i < |r| ==>
      r[i].name == ings[i].name && r[i].quantity == ings[i].quantity &&
      r[i].unit == ings[i].unit && r[i].nutrition == ings[i].nutrition
  {
    seq(|ings|, i requires 0 <= i < |ings| =>
      RecipeIngredient(i + 1, ings[i].name, ings[i].quantity, ings[i].unit, ings[i].nutrition))
  }

  /** The ids handed out on submit are pairwise distinct. */
  lemma IngredientIdsDistinct(ings: seq<IngredientDraft>)
    ensures forall i, j :: 0 <= i < j < |ings| ==> NumberIngredients(ings)[i].id != NumberIngredients(ings)[j].id
  {
  }

  /** Non-empty, with no whitespace at either end. */
  predicate Trimmed(t: string) {
    t != [] && !IsWhitespace(t[0]) && !IsWhitespace(t[|t| - 1])
  }

  /** A tag as the form keeps it: no comma, trimmed and non-empty. */
  predicate CleanTag(t: string) {
    ',' !in t && Trimmed(t)
  }

  /** A piece of a comma-split text that is not blank once trimmed trims to a clean tag. */
  lemma TrimmedPieceShape(piece: string)
    requires ',' !in piece && Trim(piece) != []
    ensures CleanTag(Trim(piece))
  {
    TrimShape(piece);
  }

  /** `.map(t => t.trim()).filter(t => t)` over the split pieces. */
  function CleanPieces(pieces: seq<string>): seq<string> {
    if pieces == [] then []
    else if Trim(pieces[0]) == [] then CleanPieces(pieces[1..])
    else [Trim(pieces[0])] + CleanPieces(pieces[1..])
  }

  /** Pieces free of commas clean up to clean tags. */
  lemma {:induction false} CleanPiecesAreTags(pieces: seq<string>)
    requires forall k :: 0 <= k < |pieces| ==> ',' !in pieces[k]
    ensures forall i :: 0 <= i < |CleanPieces(pieces)| ==> CleanTag(CleanPieces(pieces)[i])
  {
    if pieces != [] {
      var rest := CleanPieces(pieces[1..]);
      assert forall k :: 0 <= k < |pieces| - 1 ==> pieces[1..][k] == pieces[k + 1];
      CleanPiecesAreTags(pieces[1..]);
      var t := Trim(pieces[0]);
      if t != [] {
        TrimmedPieceShape(pieces[0]);
        var r := [t] + rest;
        assert CleanPieces(pieces) == r;
        forall i | 0 <= i < |r|
          ensures CleanTag(r[i])
        {
          if i > 0 {
            assert r[i] == rest[i - 1];
          }
        }
      }
    }
  }

  /** `tags.split(',').map(t => t.trim()).filter(t => t)`: clean tags only. */
  function Tags(tags: string): (r: seq<string>)
    ensures forall i :: 0 <= i < |r| ==> CleanTag(r[i])
  {
    CleanPiecesAreTags(Split(tags, ','));
    CleanPieces(Split(tags, ','))
  }

  /** Clean tags pass the clean-up unchanged. */
  lemma {:induction false} CleanPiecesKeepsTags(ts: seq<string>)
    requires forall i :: 0 <= i < |ts| ==> CleanTag(ts[i])
    ensures CleanPieces(ts) == ts
  {
    if ts != [] {
      TrimOfTrimmed(ts[0]);
      CleanPiecesKeepsTags(ts[1..]);
    }
  }

  /** A tag list typed back in as text, comma-separated, comes out of the clean-up unchanged,
      as long as every tag is clean. */
  lemma TagsRoundTrip(ts: seq<string>)
    requires forall i :: 0 <= i < |ts| ==> CleanTag(ts[i])
    ensures Tags(Join(ts, ',')) == ts
  {
    if ts == [] {
      assert Split("", ',') == [""];
    } else {
      SplitJoin(ts, ',');
      CleanPiecesKeepsTags(ts);
    }
  }

  /** The recipe `handleSubmit` hands to `addRecipe`: numbered ingredients, their total,
      the filled instructions in order and the cleaned tags; the name is kept as typed. */
  function Draft(form: FormData, ings: seq<IngredientDraft>): (d: RecipeDraft)
    ensures |d.ingredients| == |ings| && forall i :: 0 <= i < |ings| ==> d.ingredients[i].id == i + 1
    ensures forall i :: 0 <= i < |d.instructions| ==> !IsBlank(d.instructions[i])
    ensures d.name == form.name && d.servings == form.servings && d.difficulty == form.difficulty
    ensures SubmissionOk(form, ings) ==> d.instructions != [] && d.ingredients != []
  {
    RecipeDraft(form.name, form.description, form.servings, NumberIngredients(ings),
      FilledInstructions(form.instructions), TotalNutrition(ings), form.prepTime, form.cookTime,
      form.difficulty, Tags(form.tags))
  }

  /** The difficulty filter: `all` or one level. */
  datatype DifficultyFilter = AllLevels | Only(level: Difficulty)

  /** The search: the lower-cased term occurs in the lower-cased name, description or a tag. */
  predicate MatchesSearch(recipe: Recipe, term: string) {
    var t := Lower(term);
    || Contains(Lower(recipe.name), t)
    || Contains(Lower(recipe.description), t)
    || exists i :: 0 <= i < |recipe.tags| && Contains(Lower(recipe.tags[i]), t)
  }

  predicate MatchesLevel(recipe: Recipe, filter: DifficultyFilter) {
    filter.AllLevels? || recipe.difficulty == filter.level
  }

  /** `filteredRecipes`: the recipes matching both the search and the level, in order. */
  function FilterRecipes(recipes: seq<Recipe>, term: string, filter: DifficultyFilter): (r: seq<Recipe>)
    ensures forall i :: 0 <= i < |r| ==>
      r[i] in recipes && MatchesSearch(r[i], term) && MatchesLevel(r[i], filter)
    ensures forall i :: 0 <= i < |recipes| && MatchesSearch(recipes[i], term) && MatchesLevel(recipes[i], filter) ==>
      recipes[i] in r
  {
    Filter(recipes, recipe => MatchesSearch(recipe, term) && MatchesLevel(recipe, filter))
  }

  /** Every text contains the empty text. */
  lemma ContainsEmpty(s: string)
    ensures Contains(s, "")
  {
    assert IsPrefix("", s);
  }

  /** With an empty search and the `all` level every recipe is shown, in order. */
  lemma EmptySearchShowsAll(recipes: seq<Recipe>)
    ensures FilterRecipes(recipes, "", AllLevels) == recipes
  {
    forall i | 0 <= i < |recipes|
      ensures MatchesSearch(recipes[i], "") && MatchesLevel(recipes[i], AllLevels)
    {
      ContainsEmpty(Lower(recipes[i].name));
    }
    FilterKeepsAll(recipes, recipe => MatchesSearch(recipe, "") && MatchesLevel(recipe, AllLevels));
  }

  /** The "add to diary" prompt: cancelled, empty or not numeric adds nothing; otherwise
      the integer part is used when it is at least 1. */
  function ServingsToAdd(answer: Option<Text>): (r: Option<int>)
    ensures r.Some? <==> answer.Some? && answer.value.Num? && answer.value.value >= 1.0
    ensures r.Some? ==> r.value >= 1 && r.value as real <= answer.value.value < r.value as real + 1.0
  {
    if answer.None? || answer.value.Blank? then None
    else
      match ParseInt(answer.value)
      case Some(n) => if n > 0 then Some(n) else None
      case None => None
  }

  /** Adds the recipe to the diary only when the prompt gave a positive number of servings. */
  method AddRecipeToDiary(tracker: Tracker.CalorieTracker, recipe: Recipe, answer: Option<Text>, id: int, timestamp: string)
    requires recipe.servings != 0
    modifies tracker
    ensures ServingsToAdd(answer).Some? ==>
      tracker.data == Tracker.AddFoodOn(old(tracker.data), old(tracker.currentDate),
        Tracker.NewFood(Tracker.FoodFromRecipe(recipe, ServingsToAdd(answer).value as real), id, timestamp))
    ensures ServingsToAdd(answer).None? ==> tracker.data == old(tracker.data)
    ensures tracker.currentDate == old(tracker.currentDate) && tracker.viewedDate == old(tracker.viewedDate)
    ensures tracker.cache == old(tracker.cache)
  {
    var servings := ServingsToAdd(answer);
    if servings.Some? {
      tracker.AddFoodFromRecipe(recipe, servings.value as real, id, timestamp);
    }
  }

  /** The creation form's state: the form fields and the ingredient rows. */
  class RecipeForm {
    var formData: FormData
    var ingredients: seq<IngredientDraft>

    constructor ()
      ensures formData == BlankForm && ingredients == [BlankIngredient]
    {
      formData := BlankForm;
      ingredients := [BlankIngredient];
    }

    /** `resetForm`. */
    method Reset()
      modifies this
      ensures formData == BlankForm && ingredients == [BlankIngredient]
    {
      formData := BlankForm;
      ingredients := [BlankIngredient];
    }

    /** `addIngredient`: one blank row at the end. */
    method AddIngredient()
      modifies this
      ensures ingredients == old(ingredients) + [BlankIngredient]
      ensures formData == old(formData)
    {
      ingredients := ingredients + [BlankIngredient];
    }

    /** `removeIngredient`: drops the row at `index`. */
    method RemoveIngredient(index: int)
      modifies this
      ensures ingredients == RemoveAt(old(ingredients), index)
      ensures formData == old(formData)
    {
      ingredients := RemoveAt(ingredients, index);
    }

    /** `updateIngredient`: replaces one field of the row at `index`. */
    method UpdateIngredient(index: int, field: IngredientField)
      requires 0 <= index < |ingredients|
      modifies this
      ensures ingredients == old(ingredients)[index := SetField(old(ingredients)[index], field)]
      ensures formData == old(formData)
    {
      ingredients := ingredients[index := SetField(ingredients[index], field)];
    }

    /** `addInstruction`: one empty step at the end. */
    method AddInstruction()
      modifies this
      ensures formData == old(formData).(instructions := old(formData).instructions + [""])
      ensures ingredients == old(ingredients)
    {
      formData := formData.(instructions := formData.instructions + [""]);
    }

    /** `updateInstruction`: replaces the step at `index`. */
    method UpdateInstruction(index: int, value: string)
      requires 0 <= index < |formData.instructions|
      modifies this
      ensures formData == old(formData).(instructions := old(formData).instructions[index := value])
      ensures ingredients == old(ingredients)
    {
      formData := formData.(instructions := formData.instructions[index := value]);
    }

    /** `removeInstruction`: drops the step at `index`. */
    method RemoveInstruction(index: int)
      modifies this
      ensures formData == old(formData).(instructions := RemoveAt(old(formData).instructions, index))
      ensures ingredients == old(ingredients)
    {
      formData := formData.(instructions := RemoveAt(formData.instructions, index));
    }

    /** `handleSubmit`: a rejected form changes nothing; an accepted one adds the cleaned
        recipe to the tracker and resets the form. */
    method Submit(tracker: Tracker.CalorieTracker, id: int, createdAt: string) returns (accepted: bool)
      modifies this, tracker
      ensures accepted <==> SubmissionOk(old(formData), old(ingredients))
      ensures accepted ==> tracker.data == old(tracker.data).(recipes := old(tracker.data).recipes +
        [Tracker.NewRecipe(Draft(old(formData), old(ingredients)), id, createdAt)])
      ensures accepted ==> formData == BlankForm && ingredients == [BlankIngredient]
      ensures !accepted ==>
        tracker.data == old(tracker.data) && formData == old(formData) && ingredients == old(ingredients)
      ensures tracker.currentDate == old(tracker.currentDate) && tracker.viewedDate == old(tracker.viewedDate)
      ensures tracker.cache == old(tracker.cache)
    {
      accepted := SubmissionOk(formData, ingredients);
      if accepted {
        Accept(tracker, id, createdAt);
      }
    }

    /** The accepted branch of `handleSubmit`. */
    method Accept(tracker: Tracker.CalorieTracker, id: int, createdAt: string)
      modifies this, tracker
      ensures tracker.data == old(tracker.data).(recipes := old(tracker.data).recipes +
        [Tracker.NewRecipe(Draft(old(formData), old(ingredients)), id, createdAt)])
      ensures formData == BlankForm && ingredients == [BlankIngredient]
      ensures tracker.currentDate == old(tracker.currentDate) && tracker.viewedDate == old(tracker.viewedDate)
      ensures tracker.cache == old(tracker.cache)
    {
      tracker.AddRecipe(Draft(formData, ingredients), id, createdAt);
      Reset();
    }
  }
}
