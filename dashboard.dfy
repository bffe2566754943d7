/** The main panel (src/components/Dashboard.tsx): the day's consumed, burned and remaining
    calories and the unread alerts. */
module Dashboard {
  import opened Wrappers
  import opened Numbers
  import opened Lists
  import opened Types
  import opened Tracker
  import opened History

  /** The day as the panel receives it: each list may be missing. */
  datatype DayRecord = DayRecord(foods: Option<seq<FoodItem>>, exercises: Option<seq<ExerciseEntry>>)

  /** A day read through `getDailyData` always has both lists. */
  function Present(day: DailyData): (r: DayRecord)
    ensures r.foods == Some(day.foods) && r.exercises == Some(day.exercises)
  {
    DayRecord(Some(day.foods), Some(day.exercises))
  }

  /** The figures as the panel computes them; `None` stands for NaN. */
  datatype PanelAsWritten = PanelAsWritten(consumed: real, burned: Option<real>, remaining: Option<real>)

  /** `exercises.reduce((acc, e) => acc + e.caloriesBurned, 0)`: exercise entries have no
      `caloriesBurned` property, so every step adds `undefined` and the sum is NaN as soon
      as there is one exercise. */
  function BurnedAsWritten(exercises: Option<seq<ExerciseEntry>>): (r: Option<real>)
    ensures r.None? <==> exercises.Some? && exercises.value != []
  {
    if exercises.None? || exercises.value == [] then Some(0.0) else None
  }

  /** The panel as written: nothing while the day is loading; missing foods count as 0;
      remaining is the expenditure minus the net intake, NaN when burned is NaN. */
  function PanelOfAsWritten(day: Option<DayRecord>, tdee: real): (r: Option<PanelAsWritten>)
    ensures r.None? <==> day.None?
    ensures r.Some? ==> r.value.consumed == (if day.value.foods.Some? then Consumed(day.value.foods.value) else 0.0)
    ensures r.Some? ==> (r.value.remaining.None? <==> r.value.burned.None?)
    ensures r.Some? && r.value.burned.Some? ==>
      r.value.remaining == Some(tdee - (r.value.consumed - r.value.burned.value))
  {
    match day
    case None => None
    case Some(d) =>
      var consumed := if d.foods.Some? then Consumed(d.foods.value) else 0.0;
      var burned := BurnedAsWritten(d.exercises);
      Some(PanelAsWritten(consumed, burned,
        if burned.Some? then Some(tdee - (consumed - burned.value)) else None))
  }

  /** One exercise of 300 kcal is enough: the panel shows NaN for burned and remaining. */
  lemma OneExerciseMakesNaN(tdee: real)
    ensures var day := DayRecord(Some([]), Some([ExerciseEntry(1, "corrida", 300.0, "")]));
      var p := PanelOfAsWritten(Some(day), tdee).value;
      p.burned.None? && p.remaining.None?
  {
  }

  /** The figures the panel evidently means to show. */
  datatype Panel = Panel(consumed: real, burned: real, remaining: real)

  /** The panel with burned summed over the exercises' `calories`, the field every exercise
      entry carries. */
  function PanelOf(day: Option<DayRecord>, tdee: real): (r: Option<Panel>)
    ensures r.None? <==> day.None?
    ensures r.Some? ==> r.value.consumed == (if day.value.foods.Some? then Consumed(day.value.foods.value) else 0.0)
    ensures r.Some? ==> r.value.burned == (if day.value.exercises.Some? then Burned(day.value.exercises.value) else 0.0)
    ensures r.Some? ==> r.value.remaining == tdee - (r.value.consumed - r.value.burned)
  {
    match day
    case None => None
    case Some(d) =>
      var consumed := if d.foods.Some? then Consumed(d.foods.value) else 0.0;
      var burned := if d.exercises.Some? then Burned(d.exercises.value) else 0.0;
      Some(Panel(consumed, burned, tdee - (consumed - burned)))
  }

  /** Without exercises the panel as written and the corrected panel agree. */
  lemma AsWrittenAgreesWithoutExercises(day: DayRecord, tdee: real)
    requires day.exercises.None? || day.exercises.value == []
    ensures var p := PanelOf(Some(day), tdee).value;
      PanelOfAsWritten(Some(day), tdee) == Some(PanelAsWritten(p.consumed, Some(p.burned), Some(p.remaining)))
  {
  }

  /** The corrected panel shows the same day as the history page: the same consumed and
      burned figures, and the history's remaining is the panel's, clamped at zero. */
  lemma PanelMatchesHistory(day: DailyData, tdee: real)
    ensures var p := PanelOf(Some(Present(day)), tdee).value;
      var s := SummaryOf(day, tdee);
      p.consumed == s.consumed && p.burned == s.burned && s.remaining == Max(p.remaining, 0.0)
  {
  }

  /** `alerts?.filter(a => !a.read) ?? []`. */
  function ActiveAlerts(alerts: Option<seq<Alert>>): (r: seq<Alert>)
    ensures alerts.None? ==> r == []
    ensures forall i :: 0 <= i < |r| ==> !r[i].read && alerts.Some? && r[i] in alerts.value
    ensures alerts.Some? ==> forall i :: 0 <= i < |alerts.value| && !alerts.value[i].read ==> alerts.value[i] in r
  {
    if alerts.None? then [] else Filter(alerts.value, (a: Alert) => !a.read)
  }

  /** Once an alert is marked read it leaves the panel, and no alert joins it. */
  lemma MarkReadRetiresAlert(alerts: seq<Alert>, id: int)
    ensures forall a :: a in ActiveAlerts(Some(MarkRead(alerts, id))) ==>
      a.id != id && a in ActiveAlerts(Some(alerts))
  {
    var after := MarkRead(alerts, id);
    forall a | a in ActiveAlerts(Some(after))
      ensures a.id != id && a in ActiveAlerts(Some(alerts))
    {
      var k :| 0 <= k < |after| && after[k] == a;
      assert after[k].(read := alerts[k].read) == alerts[k];
    }
  }
}
