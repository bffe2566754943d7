/** The day history (src/components/History.tsx): the totals of the viewed day and the
    removal of its entries. */
module History {
  import opened Numbers
  import opened Lists
  import opened Types
  import opened Tracker

  /** The energy of one logged food: calories per unit times the quantity eaten. */
  function FoodEnergy(f: FoodItem): real {
    f.calories * f.quantity
  }

  function ExerciseEnergy(e: ExerciseEntry): real {
    e.calories
  }

  /** `totalConsumed`. */
  function Consumed(foods: seq<FoodItem>): real {
    Sum(foods, FoodEnergy)
  }

  /** `totalBurned`. */
  function Burned(exercises: seq<ExerciseEntry>): real {
    Sum(exercises, ExerciseEnergy)
  }

  datatype DaySummary = DaySummary(consumed: real, burned: real, net: real, remaining: real)

  /** The four figures of the day: consumed, burned, consumed minus burned, and what is left
      of the daily energy expenditure, never shown below zero. */
  function SummaryOf(day: DailyData, tdee: real): (s: DaySummary)
    ensures s.consumed == Consumed(day.foods) && s.burned == Burned(day.exercises)
    ensures s.net == s.consumed - s.burned
    ensures s.remaining >= 0.0 && s.remaining >= tdee - s.net
    ensures s.remaining == 0.0 || s.remaining == tdee - s.net
  {
    var consumed := Consumed(day.foods);
    var burned := Burned(day.exercises);
    DaySummary(consumed, burned, consumed - burned, Max(tdee - (consumed - burned), 0.0))
  }

  /** The page reads the day that is being viewed. */
  method ShowHistory(tracker: CalorieTracker, tdee: real) returns (s: DaySummary)
    ensures s == SummaryOf(DayOf(tracker.data, tracker.viewedDate), tdee)
  {
    var day := tracker.GetDailyData(tracker.viewedDate);
    s := SummaryOf(day, tdee);
  }

  /** Logging a food on a day adds its energy to that day's consumption and to nothing
      else: other days keep their totals and the burned figure stays. */
  lemma AddFoodRaisesConsumed(data: TrackerData, date: Date, food: FoodItem, tdee: real)
    ensures Consumed(DayOf(AddFoodOn(data, date, food), date).foods)
         == Consumed(DayOf(data, date).foods) + food.calories * food.quantity
    ensures Burned(DayOf(AddFoodOn(data, date, food), date).exercises) == Burned(DayOf(data, date).exercises)
    ensures forall d :: d != date ==>
      SummaryOf(DayOf(AddFoodOn(data, date, food), d), tdee) == SummaryOf(DayOf(data, d), tdee)
  {
    SumAppend(DayOf(data, date).foods, [food], FoodEnergy);
  }

  /** Logging an exercise adds its calories to the burned figure of that day. */
  lemma AddExerciseRaisesBurned(data: TrackerData, date: Date, exercise: ExerciseEntry)
    ensures Burned(DayOf(AddExerciseOn(data, date, exercise), date).exercises)
         == Burned(DayOf(data, date).exercises) + exercise.calories
    ensures Consumed(DayOf(AddExerciseOn(data, date, exercise), date).foods) == Consumed(DayOf(data, date).foods)
  {
    SumAppend(DayOf(data, date).exercises, [exercise], ExerciseEnergy);
  }

  /** The energy of the foods carrying a given id. */
  function EnergyWithId(foods: seq<FoodItem>, id: int): real {
    if foods == [] then 0.0
    else (if foods[0].id == id then FoodEnergy(foods[0]) else 0.0) + EnergyWithId(foods[1..], id)
  }

  function BurnedWithId(exercises: seq<ExerciseEntry>, id: int): real {
    if exercises == [] then 0.0
    else (if exercises[0].id == id then exercises[0].calories else 0.0) + BurnedWithId(exercises[1..], id)
  }

  /** Removing the foods with an id takes exactly their energy off the total. */
  lemma {:induction false} ConsumedWithout(foods: seq<FoodItem>, id: int)
    ensures Consumed(FoodsWithout(foods, id)) == Consumed(foods) - EnergyWithId(foods, id)
  {
    if foods != [] {
      ConsumedWithout(foods[1..], id);
      if foods[0].id != id {
        assert FoodsWithout(foods, id) == [foods[0]] + FoodsWithout(foods[1..], id);
        SumAppend([foods[0]], FoodsWithout(foods[1..], id), FoodEnergy);
      }
    }
  }

  lemma {:induction false} BurnedWithout(exercises: seq<ExerciseEntry>, id: int)
    ensures Burned(ExercisesWithout(exercises, id)) == Burned(exercises) - BurnedWithId(exercises, id)
  {
    if exercises != [] {
      BurnedWithout(exercises[1..], id);
      if exercises[0].id != id {
        assert ExercisesWithout(exercises, id) == [exercises[0]] + ExercisesWithout(exercises[1..], id);
        SumAppend([exercises[0]], ExercisesWithout(exercises[1..], id), ExerciseEnergy);
      }
    }
  }

  /** The trash button on a food of the viewed day: that day's consumption falls by the
      energy of the removed entries and its burned figure stays. */
  method RemoveFoodHere(tracker: CalorieTracker, id: int)
    modifies tracker
    ensures tracker.data == RemoveFoodOn(old(tracker.data), old(tracker.viewedDate), id)
    ensures Consumed(DayOf(tracker.data, tracker.viewedDate).foods)
         == Consumed(DayOf(old(tracker.data), tracker.viewedDate).foods)
          - EnergyWithId(DayOf(old(tracker.data), tracker.viewedDate).foods, id)
    ensures Burned(DayOf(tracker.data, tracker.viewedDate).exercises)
         == Burned(DayOf(old(tracker.data), tracker.viewedDate).exercises)
    ensures tracker.currentDate == old(tracker.currentDate) && tracker.viewedDate == old(tracker.viewedDate)
    ensures tracker.cache == old(tracker.cache)
  {
    ConsumedWithout(DayOf(tracker.data, tracker.viewedDate).foods, id);
    tracker.RemoveFood(tracker.viewedDate, id);
  }

  /** The trash button on an exercise of the viewed day. */
  method RemoveExerciseHere(tracker: CalorieTracker, id: int)
    modifies tracker
    ensures tracker.data == RemoveExerciseOn(old(tracker.data), old(tracker.viewedDate), id)
    ensures Burned(DayOf(tracker.data, tracker.viewedDate).exercises)
         == Burned(DayOf(old(tracker.data), tracker.viewedDate).exercises)
          - BurnedWithId(DayOf(old(tracker.data), tracker.viewedDate).exercises, id)
    ensures Consumed(DayOf(tracker.data, tracker.viewedDate).foods)
         == Consumed(DayOf(old(tracker.data), tracker.viewedDate).foods)
    ensures tracker.currentDate == old(tracker.currentDate) && tracker.viewedDate == old(tracker.viewedDate)
    ensures tracker.cache == old(tracker.cache)
  {
    BurnedWithout(DayOf(tracker.data, tracker.viewedDate).exercises, id);
    tracker.RemoveExercise(tracker.viewedDate, id);
  }

  /** With non-negative calories and quantities nothing consumed or burned is negative. */
  lemma TotalsNonNegative(day: DailyData)
    requires forall i :: 0 <= i < |day.foods| ==> day.foods[i].calories >= 0.0 && day.foods[i].quantity >= 0.0
    requires forall i :: 0 <= i < |day.exercises| ==> day.exercises[i].calories >= 0.0
    ensures Consumed(day.foods) >= 0.0 && Burned(day.exercises) >= 0.0
  {
    SumNonNegative(day.foods, FoodEnergy);
    SumNonNegative(day.exercises, ExerciseEnergy);
  }
}
