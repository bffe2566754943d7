/** The export tab (src/components/Export.tsx): the CSV of every logged food and exercise,
    the three counters shown on the page, and the confirmed reset. */
module Export {
  import opened Strings
  import opened Lists
  import opened Types
  import Tracker

  /** A CSV cell before it is turned into text: fixed text, a number (`toString()`), or the
      date key of the day. */
  datatype Field = Literal(text: string) | Amount(value: real) | Day(date: Date)

  type Row = seq<Field>

  /** The days in `Object.entries` order. */
  type Days = seq<(Date, DailyData)>

  const Header: Row := [Literal("Data"), Literal("Tipo"), Literal("Nome"), Literal("Quantidade"),
                        Literal("Unidade"), Literal("Calorias"), Literal("Calorias Totais")]

  /** A food row; the last column is calories times quantity. */
  function FoodRow(date: Date, food: FoodItem): (r: Row)
    ensures |r| == 7 && r[1] == Literal("Comida")
    ensures r[6] == Amount(food.calories * food.quantity)
  {
    [Day(date), Literal("Comida"), Literal(food.name), Amount(food.quantity), Literal(food.unit),
     Amount(food.calories), Amount(food.calories * food.quantity)]
  }

  /** An exercise row: quantity `1`, unit `sessão`, and the calories in both calorie columns. */
  function ExerciseRow(date: Date, exercise: ExerciseEntry): (r: Row)
    ensures |r| == 7 && r[1] == Literal("Exercício")
    ensures r[3] == Literal("1") && r[4] == Literal("sessão") && r[5] == r[6] == Amount(exercise.calories)
  {
    [Day(date), Literal("Exercício"), Literal(exercise.name), Literal("1"), Literal("sessão"),
     Amount(exercise.calories), Amount(exercise.calories)]
  }

  /** One food row per food, in list order. */
  function FoodRows(date: Date, foods: seq<FoodItem>): (r: seq<Row>)
    ensures |r| == |foods| && forall k :: 0 <= k < |foods| ==> r[k] == FoodRow(date, foods[k])
  {
    seq(|foods|, k requires 0 <= k < |foods| => FoodRow(date, foods[k]))
  }

  /** One exercise row per exercise, in list order. */
  function ExerciseRows(date: Date, exercises: seq<ExerciseEntry>): (r: seq<Row>)
    ensures |r| == |exercises| && forall k :: 0 <= k < |exercises| ==> r[k] == ExerciseRow(date, exercises[k])
  {
    seq(|exercises|, k requires 0 <= k < |exercises| => ExerciseRow(date, exercises[k]))
  }

  /** The rows of one day. */
  function DayRows(date: Date, day: DailyData): seq<Row> {
    FoodRows(date, day.foods) + ExerciseRows(date, day.exercises)
  }

  /** Within a day, every food row comes before every exercise row, each group in list
      order, one row per entry. */
  lemma DayRowsOrder(date: Date, day: DailyData)
    ensures |DayRows(date, day)| == |day.foods| + |day.exercises|
    ensures forall k :: 0 <= k < |day.foods| ==> DayRows(date, day)[k] == FoodRow(date, day.foods[k])
    ensures forall k :: 0 <= k < |day.exercises| ==>
      DayRows(date, day)[|day.foods| + k] == ExerciseRow(date, day.exercises[k])
    ensures forall k :: 0 <= k < |DayRows(date, day)| ==>
      (DayRows(date, day)[k][1] == Literal("Comida") <==> k < |day.foods|)
  {
  }

  /** The rows after the header, day after day. */
  function BodyRows(days: Days): seq<Row>
  {
    if days == [] then []
    else BodyRows(days[..|days| - 1]) + DayRows(days[|days| - 1].0, days[|days| - 1].1)
  }

  /** `csvData`: the header, then the rows of every day. */
  function Rows(days: Days): (r: seq<Row>)
    ensures |r| >= 1 && r[0] == Header
  {
    [Header] + BodyRows(days)
  }

  /** The rows of a longer prefix of the days: one more day's rows at the end. */
  lemma RowsStep(days: Days, i: nat)
    requires i < |days|
    ensures Rows(days[..i + 1]) == Rows(days[..i]) + DayRows(days[i].0, days[i].1)
  {
    assert days[..i + 1][..i] == days[..i];
  }

  /** Every row, the header included, has the same seven columns. */
  lemma {:induction false} SevenColumns(days: Days)
    ensures forall i :: 0 <= i < |Rows(days)| ==> |Rows(days)[i]| == 7
  {
    if days != [] {
      var n := |days| - 1;
      SevenColumns(days[..n]);
      RowsStep(days, n);
      assert days[..n + 1] == days;
      var r := Rows(days);
      forall i | 0 <= i < |r|
        ensures |r[i]| == 7
      {
        if i >= |Rows(days[..n])| {
          DayRowsOrder(days[n].0, days[n].1);
          assert r[i] == DayRows(days[n].0, days[n].1)[i - |Rows(days[..n])|];
        }
      }
    }
  }

  /** `dailyData.foods.forEach(food => csvData.push(...))`. */
  method PushFoodRows(rows: seq<Row>, date: Date, foods: seq<FoodItem>) returns (out: seq<Row>)
    ensures out == rows + FoodRows(date, foods)
  {
    out := rows;
    var j := 0;
    while j < |foods|
      invariant 0 <= j <= |foods|
      invariant out == rows + FoodRows(date, foods[..j])
    {
      assert FoodRows(date, foods[..j + 1]) == FoodRows(date, foods[..j]) + [FoodRow(date, foods[j])];
      out := out + [FoodRow(date, foods[j])];
      j := j + 1;
    }
    assert foods[..j] == foods;
  }

  /** `dailyData.exercises.forEach(exercise => csvData.push(...))`. */
  method PushExerciseRows(rows: seq<Row>, date: Date, exercises: seq<ExerciseEntry>) returns (out: seq<Row>)
    ensures out == rows + ExerciseRows(date, exercises)
  {
    out := rows;
    var j := 0;
    while j < |exercises|
      invariant 0 <= j <= |exercises|
      invariant out == rows + ExerciseRows(date, exercises[..j])
    {
      assert ExerciseRows(date, exercises[..j + 1]) == ExerciseRows(date, exercises[..j]) + [ExerciseRow(date, exercises[j])];
      out := out + [ExerciseRow(date, exercises[j])];
      j := j + 1;
    }
    assert exercises[..j] == exercises;
  }

  /** The two `forEach` loops over one day. */
  method PushDayRows(rows: seq<Row>, date: Date, day: DailyData) returns (out: seq<Row>)
    ensures out == rows + DayRows(date, day)
  {
    out := PushFoodRows(rows, date, day.foods);
    out := PushExerciseRows(out, date, day.exercises);
    assert DayRows(date, day) == FoodRows(date, day.foods) + ExerciseRows(date, day.exercises);
  }

  /** `exportToCSV`'s row building: the header, then for each day in entry order its food
      rows and its exercise rows. */
  method BuildRows(days: Days) returns (rows: seq<Row>)
    ensures rows == Rows(days)
  {
    rows := [Header];
    assert rows == Rows(days[..0]);
    var i := 0;
    while i < |days|
      invariant 0 <= i <= |days|
      invariant rows == Rows(days[..i])
    {
      rows := PushDayRows(rows, days[i].0, days[i].1);
      RowsStep(days, i);
      i := i + 1;
    }
    assert days[..i] == days;
  }

  /** `totalFoods`: the sum of the per-day food counts, in the order `reduce` adds them. */
  function TotalFoods(days: Days): nat {
    if days == [] then 0 else TotalFoods(days[..|days| - 1]) + |days[|days| - 1].1.foods|
  }

  /** `totalExercises`, likewise. */
  function TotalExercises(days: Days): nat {
    if days == [] then 0 else TotalExercises(days[..|days| - 1]) + |days[|days| - 1].1.exercises|
  }

  /** One row per food and one per exercise, after the header. */
  lemma {:induction false} RowCount(days: Days)
    ensures |Rows(days)| == 1 + TotalFoods(days) + TotalExercises(days)
  {
    if days != [] {
      RowCount(days[..|days| - 1]);
    }
  }

  /** `days` lists the day map: distinct dates, each with its own day, and every date. */
  predicate Enumerates(days: Days, m: map<Date, DailyData>) {
    && (forall i, j :: 0 <= i < j < |days| ==> days[i].0 != days[j].0)
    && (forall i :: 0 <= i < |days| ==> days[i].0 in m && m[days[i].0] == days[i].1)
    && (forall d :: d in m ==> exists i :: 0 <= i < |days| && days[i].0 == d)
  }

  /** A list of distinct dates that covers a set has as many entries as the set. */
  lemma {:induction false} DistinctDatesCount(ds: seq<Date>, s: set<Date>)
    requires forall i, j :: 0 <= i < j < |ds| ==> ds[i] != ds[j]
    requires forall i :: 0 <= i < |ds| ==> ds[i] in s
    requires forall d :: d in s ==> exists i :: 0 <= i < |ds| && ds[i] == d
    ensures |s| == |ds|
  {
    if ds == [] {
      assert forall d :: d !in s;
      assert s == {};
    } else {
      var last := ds[|ds| - 1];
      var rest := ds[..|ds| - 1];
      forall d | d in s - {last}
        ensures exists i :: 0 <= i < |rest| && rest[i] == d
      {
        var i :| 0 <= i < |ds| && ds[i] == d;
        assert rest[i] == d;
      }
      DistinctDatesCount(rest, s - {last});
    }
  }

  /** `totalDays` counts the keys of the day map, which is the number of entries the CSV walks
      through. */
  lemma TotalDaysIsEntryCount(days: Days, m: map<Date, DailyData>)
    requires Enumerates(days, m)
    ensures |m| == |days|
  {
    var ds := seq(|days|, i requires 0 <= i < |days| => days[i].0);
    forall d | d in m.Keys
      ensures exists i :: 0 <= i < |ds| && ds[i] == d
    {
      var i :| 0 <= i < |days| && days[i].0 == d;
      assert ds[i] == d;
    }
    DistinctDatesCount(ds, m.Keys);
  }

  /** The text of one line: the cells joined by commas, with no quoting. */
  function Line(row: Row, show: Field -> string): string {
    Join(Map(row, show), ',')
  }

  /** The text of every line, in order. */
  function Lines(rows: seq<Row>, show: Field -> string): (r: seq<string>)
    ensures |r| == |rows|
    ensures forall i :: 0 <= i < |rows| ==> r[i] == Line(rows[i], show)
  {
    if rows == [] then [] else [Line(rows[0], show)] + Lines(rows[1..], show)
  }

  /** `csvContent`: the lines joined by newlines. */
  function CsvText(rows: seq<Row>, show: Field -> string): string {
    Join(Lines(rows, show), '\n')
  }

  /** A join avoids a character that neither the separator nor any piece holds. */
  lemma {:induction false} JoinAvoids(parts: seq<string>, sep: char, c: char)
    requires c != sep
    requires forall k :: 0 <= k < |parts| ==> c !in parts[k]
    ensures c !in Join(parts, sep)
  {
    if |parts| > 1 {
      JoinAvoids(parts[1..], sep, c);
    }
  }

  /** The CSV reads back: while no cell's text holds a comma or a newline, splitting the text
      at newlines gives the lines, and splitting a line at commas gives its cells' texts. */
  lemma CsvReadsBack(rows: seq<Row>, show: Field -> string)
    requires |rows| >= 1
    requires forall i :: 0 <= i < |rows| ==> |rows[i]| >= 1
    requires forall i, k :: 0 <= i < |rows| && 0 <= k < |rows[i]| ==>
      ',' !in show(rows[i][k]) && '\n' !in show(rows[i][k])
    ensures Split(CsvText(rows, show), '\n') == Lines(rows, show)
    ensures forall i :: 0 <= i < |rows| ==> Split(Lines(rows, show)[i], ',') == Map(rows[i], show)
  {
    var lines := Lines(rows, show);
    forall i | 0 <= i < |rows|
      ensures '\n' !in lines[i]
      ensures Split(lines[i], ',') == Map(rows[i], show)
    {
      var cells := Map(rows[i], show);
      JoinAvoids(cells, ',', '\n');
      SplitJoin(cells, ',');
    }
    SplitJoin(lines, '\n');
  }

  /** The export's lines: the header line and then one 7-cell line per food and exercise. */
  lemma ExportShape(days: Days, show: Field -> string)
    requires forall f: Field :: ',' !in show(f) && '\n' !in show(f)
    ensures |Split(CsvText(Rows(days), show), '\n')| == 1 + TotalFoods(days) + TotalExercises(days)
    ensures forall i :: 0 <= i < |Rows(days)| ==>
      |Split(Lines(Rows(days), show)[i], ',')| == 7
  {
    SevenColumns(days);
    CsvReadsBack(Rows(days), show);
    RowCount(days);
  }

  /** `handleReset`: the data are reset only when the user confirms. */
  method HandleReset(tracker: Tracker.CalorieTracker, confirmed: bool)
    requires tracker.Valid()
    modifies tracker
    ensures tracker.Valid()
    ensures confirmed ==> tracker.data == DefaultData && tracker.cache == map[]
    ensures !confirmed ==> tracker.data == old(tracker.data) && tracker.cache == old(tracker.cache)
    ensures tracker.currentDate == old(tracker.currentDate) && tracker.viewedDate == old(tracker.viewedDate)
  {
    if confirmed {
      tracker.ResetData();
    }
  }
}
