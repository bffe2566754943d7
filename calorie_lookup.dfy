/** The calorie search behind `searchCaloriesWithAI`: a fixed table of calories per 100 g,
    an exact lookup, a partial (substring) scan in table order and a keyword estimate. */
module CalorieLookup {
  import opened Wrappers
  import opened Strings

  /** Food names with their calories, in the order the entries are written and enumerated. */
  type Table = seq<(string, int)>

  const Fruits: Table := [
    ("maçã", 52), ("banana", 89), ("laranja", 47), ("pêra", 57), ("uva", 62), ("morango", 32),
    ("abacaxi", 50), ("manga", 60), ("kiwi", 61), ("melancia", 30), ("melão", 34), ("pêssego", 39),
    ("ameixa", 46), ("cereja", 63), ("limão", 29), ("coco", 354), ("abacate", 160), ("figo", 74),
    ("caqui", 70), ("goiaba", 68)
  ]

  const Vegetables: Table := [
    ("brócolis", 34), ("cenoura", 41), ("tomate", 18), ("alface", 15), ("pepino", 16),
    ("cebola", 40), ("batata", 77), ("batata doce", 86), ("abobrinha", 17), ("berinjela", 25),
    ("pimentão", 31), ("couve", 49), ("espinafre", 23), ("rúcula", 25), ("repolho", 25),
    ("beterraba", 43), ("rabanete", 16), ("aipo", 14), ("aspargo", 20), ("couve-flor", 25)
  ]

  const Grains: Table := [
    ("arroz", 130), ("arroz integral", 111), ("macarrão", 131), ("pão", 265),
    ("pão integral", 247), ("aveia", 389), ("quinoa", 368), ("feijão", 127), ("lentilha", 116),
    ("grão de bico", 164), ("milho", 86), ("trigo", 327), ("cevada", 354), ("centeio", 338),
    ("amaranto", 371)
  ]

  const Proteins: Table := [
    ("peito de frango", 165), ("carne bovina", 250), ("peixe", 206), ("salmão", 208), ("ovo", 155),
    ("clara de ovo", 52), ("tofu", 76), ("queijo", 113), ("iogurte", 59), ("leite", 42),
    ("leite desnatado", 34), ("ricota", 174), ("atum", 144), ("sardinha", 208), ("camarão", 99),
    ("frango", 239), ("peru", 135), ("porco", 242), ("cordeiro", 294)
  ]

  const NutsAndSeeds: Table := [
    ("castanha", 656), ("amendoim", 567), ("amêndoa", 579), ("nozes", 654), ("pistache", 560),
    ("semente de girassol", 584), ("semente de abóbora", 559), ("chia", 486), ("linhaça", 534)
  ]

  const Dairy: Table := [
    ("queijo mussarela", 280), ("queijo cheddar", 403), ("queijo parmesão", 431),
    ("iogurte grego", 59), ("leite integral", 61), ("manteiga", 717), ("creme de leite", 345)
  ]

  const Snacks: Table := [
    ("pizza", 266), ("hambúrguer", 295), ("batata frita", 365), ("chocolate", 546),
    ("sorvete", 207), ("biscoito", 502), ("bolo", 257), ("donut", 452), ("chips", 536)
  ]

  const Drinks: Table := [
    ("refrigerante", 42), ("suco de laranja", 45), ("café", 2), ("chá", 1), ("água", 0),
    ("cerveja", 43), ("vinho", 83), ("água de coco", 19), ("energético", 45), ("smoothie", 120)
  ]

  const Condiments: Table := [
    ("azeite", 884), ("óleo", 884), ("vinagre", 19), ("sal", 0), ("açúcar", 387), ("mel", 304),
    ("ketchup", 112), ("maionese", 680), ("mostarda", 66)
  ]

  const BrazilianDishes: Table := [
    ("feijoada", 150), ("brigadeiro", 150), ("pão de açúcar", 300), ("coxinha", 250),
    ("pastel", 300), ("açaí", 58), ("tapioca", 98), ("farofa", 364), ("vatapá", 180)
  ]

  /** The whole table: the groups above, in order. */
  const FoodDatabase: Table :=
    Fruits + Vegetables + Grains + Proteins + NutsAndSeeds + Dairy + Snacks + Drinks
    + Condiments + BrazilianDishes

  predicate NonNegativeValues(table: Table) {
    forall i :: 0 <= i < |table| ==> table[i].1 >= 0
  }

  predicate NonEmptyKeys(table: Table) {
    forall i :: 0 <= i < |table| ==> table[i].0 != []
  }

  lemma ConcatKeepsProperties(a: Table, b: Table)
    requires NonNegativeValues(a) && NonNegativeValues(b)
    requires NonEmptyKeys(a) && NonEmptyKeys(b)
    ensures NonNegativeValues(a + b) && NonEmptyKeys(a + b)
  {
    forall i | 0 <= i < |a + b|
      ensures (a + b)[i].1 >= 0 && (a + b)[i].0 != []
    {
      if i >= |a| {
        assert (a + b)[i] == b[i - |a|];
      }
    }
  }

  predicate WellFormed(table: Table) {
    NonNegativeValues(table) && NonEmptyKeys(table)
  }

  lemma FruitsWellFormed()
    ensures WellFormed(Fruits)
  {
  }

  lemma VegetablesWellFormed()
    ensures WellFormed(Vegetables)
  {
  }

  lemma GrainsWellFormed()
    ensures WellFormed(Grains)
  {
  }

  lemma ProteinsWellFormed()
    ensures WellFormed(Proteins)
  {
  }

  lemma NutsAndSeedsWellFormed()
    ensures WellFormed(NutsAndSeeds)
  {
  }

  lemma DairyWellFormed()
    ensures WellFormed(Dairy)
  {
  }

  lemma SnacksWellFormed()
    ensures WellFormed(Snacks)
  {
  }

  lemma DrinksWellFormed()
    ensures WellFormed(Drinks)
  {
  }

  lemma CondimentsWellFormed()
    ensures WellFormed(Condiments)
  {
  }

  lemma BrazilianDishesWellFormed()
    ensures WellFormed(BrazilianDishes)
  {
  }

  /** No entry has negative calories and no key is empty; the table has 127 entries. */
  lemma FoodDatabaseWellFormed()
    ensures |FoodDatabase| == 127
    ensures WellFormed(FoodDatabase)
    ensures FoodDatabase[0] == ("maçã", 52)
  {
    var t := Fruits;
    FruitsWellFormed();
    VegetablesWellFormed();
    ConcatKeepsProperties(t, Vegetables);
    t := t + Vegetables;
    GrainsWellFormed();
    ConcatKeepsProperties(t, Grains);
    t := t + Grains;
    ProteinsWellFormed();
    ConcatKeepsProperties(t, Proteins);
    t := t + Proteins;
    NutsAndSeedsWellFormed();
    ConcatKeepsProperties(t, NutsAndSeeds);
    t := t + NutsAndSeeds;
    DairyWellFormed();
    ConcatKeepsProperties(t, Dairy);
    t := t + Dairy;
    SnacksWellFormed();
    ConcatKeepsProperties(t, Snacks);
    t := t + Snacks;
    DrinksWellFormed();
    ConcatKeepsProperties(t, Drinks);
    t := t + Drinks;
    CondimentsWellFormed();
    ConcatKeepsProperties(t, Condiments);
    t := t + Condiments;
    BrazilianDishesWellFormed();
    ConcatKeepsProperties(t, BrazilianDishes);
    t := t + BrazilianDishes;
    assert t == FoodDatabase;
  }

  /** The food name as it is looked up and cached: lower-cased, then trimmed. */
  function Normalize(foodName: string): string {
    Trim(Lower(foodName))
  }

  /** `foodDatabase[name]` for a name that is a key of the table. */
  function Lookup(table: Table, name: string): (r: Option<int>)
    ensures r.Some? ==> (name, r.value) in table
    ensures r.None? <==> forall i :: 0 <= i < |table| ==> table[i].0 != name
  {
    if table == [] then None
    else if table[0].0 == name then Some(table[0].1)
    else Lookup(table[1..], name)
  }

  /** The partial-match test: the name contains the food key or the key contains the name. */
  predicate Matches(name: string, food: string) {
    Contains(name, food) || Contains(food, name)
  }

  /** Index of the first entry at or after `from` whose key matches the name. */
  function FirstMatchFrom(table: Table, name: string, from: nat): (r: Option<nat>)
    requires from <= |table|
    ensures r.Some? ==> from <= r.value < |table| && Matches(name, table[r.value].0)
    ensures r.Some? ==> forall j :: from <= j < r.value ==> !Matches(name, table[j].0)
    ensures r.None? ==> forall j :: from <= j < |table| ==> !Matches(name, table[j].0)
    decreases |table| - from
  {
    if from == |table| then None
    else if Matches(name, table[from].0) then Some(from)
    else FirstMatchFrom(table, name, from + 1)
  }

  /** The calories the partial scan finds: the first matching entry's value, or 0. */
  function PartialCalories(table: Table, name: string): (r: int)
    requires NonNegativeValues(table)
    ensures r >= 0
    ensures r != 0 ==> exists i :: 0 <= i < |table| && Matches(name, table[i].0)
  {
    match FirstMatchFrom(table, name, 0)
    case Some(i) => table[i].1
    case None => 0
  }

  /** The estimate by food category, used when the table gives 0. */
  function Estimate(name: string): (r: int)
    ensures r in {25, 40, 50, 100, 150, 200, 300}
  {
    if Contains(name, "fruta") || Contains(name, "suco natural") then 50
    else if Contains(name, "vegetal") || Contains(name, "salada") || Contains(name, "verdura") then 25
    else if Contains(name, "carne") || Contains(name, "frango") || Contains(name, "peixe")
         || Contains(name, "proteína") then 200
    else if Contains(name, "arroz") || Contains(name, "massa") || Contains(name, "pão")
         || Contains(name, "carboidrato") then 150
    else if Contains(name, "doce") || Contains(name, "chocolate") || Contains(name, "bolo") then 300
    else if Contains(name, "bebida") || Contains(name, "suco") then 40
    else 100
  }

  /** The calories a search settles on in a table. An exact entry counts only when its value
      is non-zero (the lookup tests truthiness): a missing name and a name whose entry holds 0
      both go on to the partial scan. A result of 0 from the table is replaced by the estimate,
      so the answer is always positive. */
  function Search(table: Table, name: string): (r: int)
    requires NonNegativeValues(table)
    ensures r > 0
    ensures var exact := Lookup(table, name);
      exact.Some? && exact.value != 0 ==> r == exact.value
    ensures var exact := Lookup(table, name);
      !(exact.Some? && exact.value != 0) && PartialCalories(table, name) != 0 ==>
        r == PartialCalories(table, name)
    ensures var exact := Lookup(table, name);
      !(exact.Some? && exact.value != 0) && PartialCalories(table, name) == 0 ==> r == Estimate(name)
  {
    var exact := Lookup(table, name);
    var found := if exact.Some? && exact.value != 0 then exact.value else PartialCalories(table, name);
    if found == 0 then Estimate(name) else found
  }

  /** The answer for a normalised name with the program's own table. */
  function CaloriesFor(name: string): (r: int)
    ensures r > 0
  {
    FoodDatabaseWellFormed();
    Search(FoodDatabase, name)
  }

  /** The table lookup and partial scan as the source runs them: the scan stops at the first
      matching entry. */
  method LookupCalories(table: Table, name: string) returns (calories: int)
    requires NonNegativeValues(table)
    ensures calories == Search(table, name)
  {
    calories := 0;
    var exact := Lookup(table, name);
    if exact.Some? && exact.value != 0 {
      calories := exact.value;
    } else {
      var i := 0;
      while i < |table|
        invariant 0 <= i <= |table|
        invariant forall j :: 0 <= j < i ==> !Matches(name, table[j].0)
        invariant calories == 0
      {
        var (food, cals) := table[i];
        if Contains(name, food) || Contains(food, name) {
          calories := cals;
          break;
        }
        i := i + 1;
      }
      assert calories == PartialCalories(table, name);
    }
    if calories == 0 {
      calories := Estimate(name);
    }
  }

  /** The empty name is contained in every key: it is never an exact key and the scan stops
      at the first entry. */
  lemma EmptyNameTakesFirstEntry(table: Table)
    requires NonNegativeValues(table) && NonEmptyKeys(table) && |table| > 0
    ensures Search(table, "") == if table[0].1 != 0 then table[0].1 else Estimate("")
  {
    assert IsPrefix("", table[0].0);
    assert Matches("", table[0].0);
  }

  /** With the program's table, an empty food name gets the calories of the first entry. */
  lemma EmptyNameIsApple()
    ensures CaloriesFor("") == 52
  {
    FoodDatabaseWellFormed();
    EmptyNameTakesFirstEntry(FoodDatabase);
  }
}
