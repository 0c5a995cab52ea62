# Calorie ledger

A Dafny model of the `CalorieTracker` ledger of a browser calorie-tracking
widget. The ledger keeps a daily calorie limit, a running net total, and the
ordered lists of meals (intake) and workouts (expenditure). Adding a meal
raises the total. Adding a workout lowers it. Removing a record by id undoes
its effect, and a missing id changes nothing. Reset empties the day, and the
limit can be replaced at any time. The page shows three derived figures:
consumed (the meals' calories), burned (the workouts' calories) and remaining
(limit minus total). The sign of remaining picks the colour of the display.

The total is never recomputed from the lists; each mutator adjusts it. The
model's central fact is the ledger invariant `Consistent()`:
`totalCalories == Sum(meals) - Sum(workouts)`. Every mutator preserves it in
both directions (`Consistent() <==> old(Consistent())`), and `Reset`
establishes it whatever the state before.

Layout:

- `records.dfy`, module `Records`: the `Record` value (`id`, `name`,
  `calories`). It holds the reference sum `Sum` and the left fold `Reduce`
  that the tracker's `reduce` call performs. It also holds `FindIndex`
  (`findIndex` by id: first match or -1) and `RemoveAt` (`splice(index, 1)`),
  with the lemmas about them.
- `tracker.dfy`, module `Tracker`: the class `CalorieTracker`. Its four fields
  are reassigned in place by methods that `modify this`. Its derived queries
  are functions that `read this`. The module also holds the progress-bar clamp
  and a client method, `DayScenario`, that walks through one day.

The stored values the constructor reads from the browser store are
constructor parameters. The total is stored apart from the lists. So the
constructor does not promise consistency. It promises that the ledger is
consistent exactly when the stored values agree.

## Model

| member | source | states |
|---|---|---|
| `Tracker.CalorieTracker.constructor` | src/Tracker.js:4-8 | the four fields are the stored values; the ledger is consistent iff the stored total equals stored meals' sum minus stored workouts' sum |
| `Tracker.CalorieTracker.AddMeal` | src/Tracker.js:22-24 | meals gain the meal at the end, total rises by its calories, workouts and limit unchanged, consistency preserved both ways |
| `Tracker.CalorieTracker.AddWorkout` | src/Tracker.js:31-33 | workouts gain the workout at the end, total falls by its calories, meals and limit unchanged, consistency preserved both ways |
| `Tracker.CalorieTracker.RemoveMeal` | src/Tracker.js:40-53 | a missing id leaves the meals and total unchanged; otherwise exactly the first meal with that id is spliced out and its calories leave the total; workouts and limit unchanged; consistency preserved both ways |
| `Tracker.CalorieTracker.RemoveWorkout` | src/Tracker.js:55-68 | a missing id leaves the workouts and total unchanged; otherwise exactly the first workout with that id is spliced out and its calories return to the total; meals and limit unchanged; consistency preserved both ways |
| `Tracker.CalorieTracker.Reset` | src/Tracker.js:70-73 | total 0, both lists empty, limit unchanged, and the ledger is consistent whatever it was before |
| `Tracker.CalorieTracker.SetLimit` | src/Tracker.js:78-79 | the limit becomes the argument; total and both lists unchanged |
| `Tracker.CalorieTracker.Consumed` | src/Tracker.js:107-109 | the fold over the meals equals the reference sum of meal calories |
| `Tracker.CalorieTracker.Burned` | src/Tracker.js:117-119 | the fold over the workouts equals the reference sum of workout calories |
| `Tracker.CalorieTracker.Remaining` | src/Tracker.js:128 | remaining is negative iff the total exceeds the limit; on a consistent ledger it is limit minus (consumed minus burned) |
| `Tracker.CalorieTracker.RemainingBand` | src/Tracker.js:128-148 | the over-limit colouring is chosen iff the total exceeds the limit, i.e. on a consistent ledger iff consumed exceeds limit plus burned |
| `Tracker.ProgressWidth` | src/Tracker.js:156 | the bar width is at most the percentage and at most 100, and equals one of them (the minimum) |
| `Records.ReduceIsSum` | src/Tracker.js:107-109 | the left fold from any starting value adds exactly the reference sum |
| `Records.FindIndex` | src/Tracker.js:41-43 | -1 iff no record has the id; otherwise an in-range position holding the id with no earlier record holding it |
| `Records.RemoveAt` | src/Tracker.js:49 | one record shorter; records before the position stay, records after shift down by one; the multiset loses exactly the removed record |
| `Records.SumRemoveAt` | src/Tracker.js:45-49 | splicing out a record lowers the calorie sum by exactly that record's calories |
| `Records.SumConcat` | src/Tracker.js:22-24 | the calorie sum of a concatenation is the sum of the sums (used for appends) |
| `Records.AppendThenRemove` | src/Tracker.js:22-49 | appending a record with a fresh id and then removing that id finds it at the end and gives back the original list and sum |
| `Records.RemoveAtUnique` | src/Tracker.js:40-49 | with unique ids, removing the first match leaves no record with that id and keeps ids unique |
| `Records.AppendUnique` | src/Tracker.js:22-23 | appending a record with a fresh id keeps ids unique |

## Left out

- Browser storage: the `Storage` calls that write the total, save or remove a record, clear the day and store the limit. `Storage.js` is not part of this model. The constructor takes the stored values as parameters. Nothing in the model depends on what the store does.
- Rendering: the `_display*` methods' DOM updates, `_displayNewItem` card construction, `_render` and `loadItems`. They only present state. What they compute is kept: consumed, burned, remaining, the band, and the bar clamp.
- Progress percentage: the division `total / limit * 100` is floating point and is unguarded when the limit is 0. Only the `Math.min(percentage, 100)` clamp is modelled, over an abstract real percentage (`ProgressWidth`).
- Numbers are unbounded integers. JavaScript numbers are doubles. `parseInt` or unary `+` on form input can produce NaN or a non-integer limit. Such inputs are not modelled.
- `src/app.js`: event wiring, `alert`/`confirm` prompts, form parsing, Bootstrap widgets, and the `_filterItems` name filter. All of it is page glue around the tracker.
- Id generation (`Item.js` is not part of this model). Ids are opaque strings. Uniqueness is not assumed by the ledger. `RemoveAtUnique` and `AppendUnique` state what holds when the caller keeps ids unique.
- The record kind (meal or workout) is not a field. It is implied by which list holds the record, as in the source.
