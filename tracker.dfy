/**
 The calorie ledger: a daily limit, a running net total, and the ordered
 lists of meals and workouts. The total is updated step by step by every
 mutator; `Consistent()` says it equals the meals' calories minus the
 workouts' calories, and every mutator keeps that fact.
 */
module Tracker {
  import opened Records

  /** The colour the page gives the "remaining" figure and the progress bar. */
  datatype Band = UnderLimit | OverLimit

  class CalorieTracker {
    var calorieLimit: int
    var totalCalories: int
    var meals: seq<Record>
    var workouts: seq<Record>

    /** The running total agrees with the two lists. */
    ghost predicate Consistent()
      reads this
    {
      totalCalories == Sum(meals) - Sum(workouts)
    }

    /**
     Builds the ledger from the values the browser store hands back. The total
     is stored apart from the lists, so the ledger starts consistent exactly
     when the stored values agree.
     */
    constructor (storedLimit: int, storedTotal: int, storedMeals: seq<Record>, storedWorkouts: seq<Record>)
      ensures calorieLimit == storedLimit && totalCalories == storedTotal
      ensures meals == storedMeals && workouts == storedWorkouts
      ensures Consistent() <==> storedTotal == Sum(storedMeals) - Sum(storedWorkouts)
    {
      calorieLimit := storedLimit;
      totalCalories := storedTotal;
      meals := storedMeals;
      workouts := storedWorkouts;
    }

    method AddMeal(meal: Record)
      modifies this
      ensures meals == old(meals) + [meal]
      ensures totalCalories == old(totalCalories) + meal.calories
      ensures workouts == old(workouts) && calorieLimit == old(calorieLimit)
      ensures Consistent() <==> old(Consistent())
    {
      SumConcat(meals, [meal]);
      meals := meals + [meal];
      totalCalories := totalCalories + meal.calories;
    }

    method AddWorkout(workout: Record)
      modifies this
      ensures workouts == old(workouts) + [workout]
      ensures totalCalories == old(totalCalories) - workout.calories
      ensures meals == old(meals) && calorieLimit == old(calorieLimit)
      ensures Consistent() <==> old(Consistent())
    {
      SumConcat(workouts, [workout]);
      workouts := workouts + [workout];
      totalCalories := totalCalories - workout.calories;
    }

    /**
     Takes out the first meal whose id is `id` and its calories from the
     total; does nothing when no meal carries `id`.
     */
    method RemoveMeal(id: string)
      modifies this
      ensures Absent(old(meals), id) ==>
                meals == old(meals) && totalCalories == old(totalCalories)
      ensures var k := FindIndex(old(meals), id);
              k != -1 ==>
                meals == RemoveAt(old(meals), k) &&
                totalCalories == old(totalCalories) - old(meals)[k].calories
      ensures workouts == old(workouts) && calorieLimit == old(calorieLimit)
      ensures Consistent() <==> old(Consistent())
    {
      var index := FindIndex(meals, id);
      if index != -1 {
        var meal := meals[index];
        SumRemoveAt(meals, index);
        totalCalories := totalCalories - meal.calories;
        meals := RemoveAt(meals, index);
      }
    }

    /**
     Takes out the first workout whose id is `id` and gives its calories back
     to the total; does nothing when no workout carries `id`.
     */
    method RemoveWorkout(id: string)
      modifies this
      ensures Absent(old(workouts), id) ==>
                workouts == old(workouts) && totalCalories == old(totalCalories)
      ensures var k := FindIndex(old(workouts), id);
              k != -1 ==>
                workouts == RemoveAt(old(workouts), k) &&
                totalCalories == old(totalCalories) + old(workouts)[k].calories
      ensures meals == old(meals) && calorieLimit == old(calorieLimit)
      ensures Consistent() <==> old(Consistent())
    {
      var index := FindIndex(workouts, id);
      if index != -1 {
        var workout := workouts[index];
        SumRemoveAt(workouts, index);
        totalCalories := totalCalories + workout.calories;
        workouts := RemoveAt(workouts, index);
      }
    }

    /** Clears the day; the ledger is consistent afterwards whatever it was before. */
    method Reset()
      modifies this
      ensures totalCalories == 0 && meals == [] && workouts == []
      ensures calorieLimit == old(calorieLimit)
      ensures Consistent()
    {
      totalCalories := 0;
      meals := [];
      workouts := [];
    }

    method SetLimit(limit: int)
      modifies this
      ensures calorieLimit == limit
      ensures totalCalories == old(totalCalories)
      ensures meals == old(meals) && workouts == old(workouts)
      ensures Consistent() <==> old(Consistent())
    {
      calorieLimit := limit;
    }

    /** Calories eaten: the fold over the meals. */
    function Consumed(): (c: int)
      reads this
      ensures c == Sum(meals)
    {
      ReduceIsSum(0, meals);
      Reduce(0, meals)
    }

    /** Calories burned: the fold over the workouts. */
    function Burned(): (b: int)
      reads this
      ensures b == Sum(workouts)
    {
      ReduceIsSum(0, workouts);
      Reduce(0, workouts)
    }

    /** What is left of the limit; on a consistent ledger, limit minus net intake. */
    function Remaining(): (r: int)
      reads this
      ensures r < 0 <==> totalCalories > calorieLimit
      ensures Consistent() ==> r == calorieLimit - (Consumed() - Burned())
    {
      calorieLimit - totalCalories
    }

    /** The page turns red exactly when the net total is above the limit. */
    function RemainingBand(): (b: Band)
      reads this
      ensures b == OverLimit <==> totalCalories > calorieLimit
      ensures Consistent() ==> (b == OverLimit <==> Consumed() > calorieLimit + Burned())
    {
      if Remaining() < 0 then OverLimit else UnderLimit
    }
  }

  /**
   The width of the progress bar for a given percentage of the limit: the
   smaller of the percentage and 100.
   */
  function ProgressWidth(percentage: real): (w: real)
    ensures w <= percentage && w <= 100.0
    ensures w == percentage || w == 100.0
  {
    if percentage < 100.0 then percentage else 100.0
  }

  /**
   A day as the page drives it: limit 2000, a 500-calorie meal, a
   200-calorie workout, the meal taken back, then the limit lowered below
   the total.
   */
  method DayScenario()
  {
    var t := new CalorieTracker(2000, 0, [], []);
    var meal := Record("m1", "Breakfast", 500);
    var run := Record("w1", "Run", 200);

    t.AddMeal(meal);
    assert t.totalCalories == 500 && t.Consumed() == 500 && t.Remaining() == 1500;

    t.AddWorkout(run);
    assert t.totalCalories == 300 && t.Burned() == 200 && t.Remaining() == 1700;

    t.RemoveMeal("m1");
    assert t.meals == [];
    assert t.totalCalories == -200 && t.Consumed() == 0 && t.Remaining() == 2200;

    t.RemoveMeal("m1");
    assert t.totalCalories == -200 && t.workouts == [run];

    t.AddMeal(Record("m2", "Dinner", 1700));
    t.SetLimit(1000);
    assert t.totalCalories == 1500 && t.Remaining() == -500;
    assert t.RemainingBand() == OverLimit;

    t.Reset();
    assert t.Consistent() && t.Remaining() == 1000 && t.RemainingBand() == UnderLimit;
  }
}
