/** The food and workout ledger of the tracker (src/App.jsx): per-date
    sequences of entries, the daily totals folded from them, the copy-on-write
    add and remove operations, and the seven-day trend. */
module Ledger {

  /** A calendar date in ISO form, `YYYY-MM-DD`. Where the keys come from (the
      clock and the calendar) is outside the model: callers inject them. */
  type DateKey = string

  /** A logged food: per-serving nutrients and the number of servings. */
  datatype FoodEntry = FoodEntry(
    name: string, calories: real, protein: real, carbs: real, fats: real, qty: real)

  /** A logged workout; `calories` was fixed when the entry was created. */
  datatype WorkoutEntry = WorkoutEntry(workoutType: string, durationMin: real, calories: real)

  /** The food side of the daily totals. */
  datatype FoodTotals = FoodTotals(calories: real, protein: real, carbs: real, fats: real)

  /** The daily totals: the food side and the calories burned by workouts. */
  datatype Totals = Totals(food: FoodTotals, burned: real)

  /** The accumulator the food fold starts from. */
  const NoFood := FoodTotals(0.0, 0.0, 0.0, 0.0)

  function Plus(a: FoodTotals, b: FoodTotals): FoodTotals
  {
    FoodTotals(a.calories + b.calories, a.protein + b.protein, a.carbs + b.carbs, a.fats + b.fats)
  }

  /** What one food entry adds to the day: every nutrient scaled by `qty`. */
  function Contribution(f: FoodEntry): (r: FoodTotals)
    ensures f.qty == 0.0 ==> r == NoFood
    ensures f.qty == 1.0 ==> r == FoodTotals(f.calories, f.protein, f.carbs, f.fats)
  {
    FoodTotals(f.calories * f.qty, f.protein * f.qty, f.carbs * f.qty, f.fats * f.qty)
  }

  // ---------------------------------------------------------------------------
  // Folds over one day's entries

  /** Every nutrient figure and the servings of a food entry are at least
      zero, as the catalog and the quantity field produce them. */
  predicate NonNegativeFood(f: FoodEntry)
  {
    f.calories >= 0.0 && f.protein >= 0.0 && f.carbs >= 0.0 && f.fats >= 0.0 && f.qty >= 0.0
  }

  /** The food-side fold: entries are added to the accumulator from first to
      last, as `reduce` does. An empty day totals zero. */
  function FoodTotal(day: seq<FoodEntry>): (r: FoodTotals)
    ensures day == [] ==> r == NoFood
    decreases |day|
  {
    if day == [] then NoFood
    else Plus(FoodTotal(day[..|day| - 1]), Contribution(day[|day| - 1]))
  }

  /** A day of non-negative entries has non-negative totals. */
  lemma {:induction false} FoodTotalNonNegative(day: seq<FoodEntry>)
    requires forall i :: 0 <= i < |day| ==> NonNegativeFood(day[i])
    ensures var r := FoodTotal(day);
      r.calories >= 0.0 && r.protein >= 0.0 && r.carbs >= 0.0 && r.fats >= 0.0
    decreases |day|
  {
    if day != [] {
      var last := day[|day| - 1];
      FoodTotalNonNegative(day[..|day| - 1]);
      assert NonNegativeFood(last);
      ContributionNonNegative(last);
    }
  }

  /** One entry's contribution is non-negative when its fields are. */
  lemma ContributionNonNegative(f: FoodEntry)
    requires NonNegativeFood(f)
    ensures var c := Contribution(f);
      c.calories >= 0.0 && c.protein >= 0.0 && c.carbs >= 0.0 && c.fats >= 0.0
  {
    assert f.calories * f.qty >= 0.0 && f.protein * f.qty >= 0.0;
    assert f.carbs * f.qty >= 0.0 && f.fats * f.qty >= 0.0;
  }

  /** The burned-calories fold: workout calories, not scaled by anything.
      An empty day burns nothing; non-negative workouts burn a non-negative
      total. */
  function Burned(day: seq<WorkoutEntry>): (r: real)
    ensures day == [] ==> r == 0.0
    ensures (forall i :: 0 <= i < |day| ==> day[i].calories >= 0.0) ==> r >= 0.0
    decreases |day|
  {
    if day == [] then 0.0
    else Burned(day[..|day| - 1]) + day[|day| - 1].calories
  }

  /** The trend's own fold: calories times servings, summed. It agrees with
      the calories of the daily totals. */
  function Consumed(day: seq<FoodEntry>): (r: real)
    ensures r == FoodTotal(day).calories
    decreases |day|
  {
    if day == [] then 0.0
    else Consumed(day[..|day| - 1]) + day[|day| - 1].calories * day[|day| - 1].qty
  }

  /** Appending one food raises each of the four totals by that nutrient
      times the entry's servings. */
  lemma FoodTotalAppend(day: seq<FoodEntry>, f: FoodEntry)
    ensures FoodTotal(day + [f]).calories == FoodTotal(day).calories + f.calories * f.qty
    ensures FoodTotal(day + [f]).protein == FoodTotal(day).protein + f.protein * f.qty
    ensures FoodTotal(day + [f]).carbs == FoodTotal(day).carbs + f.carbs * f.qty
    ensures FoodTotal(day + [f]).fats == FoodTotal(day).fats + f.fats * f.qty
  {
    assert (day + [f])[..|day|] == day;
    assert FoodTotal(day + [f]) == Plus(FoodTotal(day), Contribution(f));
  }

  /** Appending one workout raises the burned total by its calories, unscaled. */
  lemma BurnedAppend(day: seq<WorkoutEntry>, w: WorkoutEntry)
    ensures Burned(day + [w]) == Burned(day) + w.calories
  {
    assert (day + [w])[..|day|] == day;
  }

  /** The food totals of two stretches of entries add up. */
  lemma {:induction false} FoodTotalConcat(a: seq<FoodEntry>, b: seq<FoodEntry>)
    ensures FoodTotal(a + b) == Plus(FoodTotal(a), FoodTotal(b))
    decreases |b|
  {
    if b == [] {
      assert a + b == a;
    } else {
      var b' := b[..|b| - 1];
      assert (a + b)[..|a + b| - 1] == a + b';
      FoodTotalConcat(a, b');
    }
  }

  /** The burned totals of two stretches of workouts add up. */
  lemma {:induction false} BurnedConcat(a: seq<WorkoutEntry>, b: seq<WorkoutEntry>)
    ensures Burned(a + b) == Burned(a) + Burned(b)
    decreases |b|
  {
    if b == [] {
      assert a + b == a;
    } else {
      var b' := b[..|b| - 1];
      assert (a + b)[..|a + b| - 1] == a + b';
      BurnedConcat(a, b');
    }
  }

  // ---------------------------------------------------------------------------
  // Per-date logs and their copy-on-write updates

  /** `logs[key] || []`: an absent date reads as an empty day. */
  function DayOf<T>(logs: map<DateKey, seq<T>>, key: DateKey): (r: seq<T>)
    ensures key in logs ==> r == logs[key]
    ensures key !in logs ==> r == []
  {
    if key in logs then logs[key] else []
  }

  /** `splice(index, 1)` on a copy of the day: the element at `index` is
      dropped and later ones move down one place; an index past the end
      leaves the day as it was. */
  function RemoveAt<T>(s: seq<T>, index: nat): (r: seq<T>)
    ensures index < |s| ==> |r| == |s| - 1
    ensures index < |s| ==> forall j :: 0 <= j < index ==> r[j] == s[j]
    ensures index < |s| ==> forall j :: index <= j < |r| ==> r[j] == s[j + 1]
    ensures index < |s| ==> multiset(r) + multiset{s[index]} == multiset(s)
    ensures index >= |s| ==> r == s
  {
    if index < |s| then
      assert s == s[..index] + [s[index]] + s[index + 1..];
      s[..index] + s[index + 1..]
    else s
  }

  /** `addFood` / `addWorkout`: the date's day, copied, with `x` pushed. */
  function Appended<T>(logs: map<DateKey, seq<T>>, key: DateKey, x: T): (r: map<DateKey, seq<T>>)
    ensures r.Keys == logs.Keys + {key}
    ensures DayOf(r, key) == DayOf(logs, key) + [x]
    ensures forall k :: k != key ==> DayOf(r, k) == DayOf(logs, k)
  {
    logs[key := DayOf(logs, key) + [x]]
  }

  /** `removeFood` / `removeWorkout`: the date's day, copied, with one
      element spliced out. The date is always present afterwards, possibly
      with an empty day. */
  function Spliced<T>(logs: map<DateKey, seq<T>>, key: DateKey, index: nat): (r: map<DateKey, seq<T>>)
    ensures r.Keys == logs.Keys + {key}
    ensures DayOf(r, key) == RemoveAt(DayOf(logs, key), index)
    ensures forall k :: k != key ==> DayOf(r, k) == DayOf(logs, k)
  {
    logs[key := RemoveAt(DayOf(logs, key), index)]
  }

  /** Removing at the old length right after an add gives back the day that
      was there, and the logs differ from the old ones at most by an explicit
      empty day where the date was absent. */
  lemma AddThenRemove<T>(logs: map<DateKey, seq<T>>, key: DateKey, x: T)
    ensures var r := Spliced(Appended(logs, key, x), key, |DayOf(logs, key)|);
      && DayOf(r, key) == DayOf(logs, key)
      && r == logs[key := DayOf(logs, key)]
  {
    var day := DayOf(logs, key);
    assert (day + [x])[..|day|] == day;
  }

  /** Adding a food and removing it again restores the day's totals. */
  lemma AddThenRemoveFoodTotals(logs: map<DateKey, seq<FoodEntry>>, key: DateKey, f: FoodEntry)
    ensures FoodTotal(DayOf(Spliced(Appended(logs, key, f), key, |DayOf(logs, key)|), key))
         == FoodTotal(DayOf(logs, key))
  {
    AddThenRemove(logs, key, f);
  }

  /** Removing the food at `index` lowers the day's totals by exactly that
      entry's contribution. */
  lemma RemoveFoodTotals(day: seq<FoodEntry>, index: nat)
    requires index < |day|
    ensures FoodTotal(day) == Plus(FoodTotal(RemoveAt(day, index)), Contribution(day[index]))
  {
    RemoveAtSplit(day, index);
    FoodTotalWithout(day[..index], day[index], day[index + 1..]);
  }

  /** Removing the workout at `index` lowers the burned total by exactly its
      calories. */
  lemma RemoveWorkoutBurned(day: seq<WorkoutEntry>, index: nat)
    requires index < |day|
    ensures Burned(day) == Burned(RemoveAt(day, index)) + day[index].calories
  {
    RemoveAtSplit(day, index);
    BurnedWithout(day[..index], day[index], day[index + 1..]);
  }

  /** The day around a valid index, and the day without it. */
  lemma RemoveAtSplit<T>(s: seq<T>, index: nat)
    requires index < |s|
    ensures s == s[..index] + ([s[index]] + s[index + 1..])
    ensures RemoveAt(s, index) == s[..index] + s[index + 1..]
  {
    assert s == s[..index] + ([s[index]] + s[index + 1..]);
  }

  lemma FoodTotalWithout(pre: seq<FoodEntry>, f: FoodEntry, post: seq<FoodEntry>)
    ensures FoodTotal(pre + ([f] + post)) == Plus(FoodTotal(pre + post), Contribution(f))
  {
    FoodTotalSingle(f);
    FoodTotalConcat([f], post);
    FoodTotalConcat(pre, [f] + post);
    FoodTotalConcat(pre, post);
    PlusRearrange(FoodTotal(pre), FoodTotal(post), Contribution(f));
  }

  lemma FoodTotalSingle(f: FoodEntry)
    ensures FoodTotal([f]) == Contribution(f)
  {
    assert [f][..0] == [];
  }

  lemma PlusRearrange(a: FoodTotals, b: FoodTotals, c: FoodTotals)
    ensures Plus(a, Plus(c, b)) == Plus(Plus(a, b), c)
  {
  }

  lemma BurnedWithout(pre: seq<WorkoutEntry>, w: WorkoutEntry, post: seq<WorkoutEntry>)
    ensures Burned(pre + ([w] + post)) == Burned(pre + post) + w.calories
  {
    BurnedConcat(pre, [w] + post);
    BurnedConcat([w], post);
    BurnedConcat(pre, post);
    assert Burned([w]) == w.calories by {
      assert [w][..0] == [];
    }
  }

  /** An absent or empty date has all-zero totals. */
  lemma EmptyDayTotals(foodLogs: map<DateKey, seq<FoodEntry>>, workoutLogs: map<DateKey, seq<WorkoutEntry>>, key: DateKey)
    requires key !in foodLogs && key !in workoutLogs
    ensures FoodTotal(DayOf(foodLogs, key)) == FoodTotals(0.0, 0.0, 0.0, 0.0)
    ensures Burned(DayOf(workoutLogs, key)) == 0.0
  {
  }

  // ---------------------------------------------------------------------------
  // The daily totals, as the program computes them

  /** The `totals` memo: one pass over the day's foods mutating the four
      fields of an accumulator, one pass over its workouts summing calories. */
  method ComputeTotals(dailyFood: seq<FoodEntry>, dailyWorkouts: seq<WorkoutEntry>) returns (t: Totals)
    ensures t.food == FoodTotal(dailyFood)
    ensures t.burned == Burned(dailyWorkouts)
  {
    var acc := NoFood;
    var i := 0;
    while i < |dailyFood|
      invariant 0 <= i <= |dailyFood|
      invariant acc == FoodTotal(dailyFood[..i])
    {
      var f := dailyFood[i];
      acc := acc.(calories := acc.calories + f.calories * f.qty);
      acc := acc.(protein := acc.protein + f.protein * f.qty);
      acc := acc.(carbs := acc.carbs + f.carbs * f.qty);
      acc := acc.(fats := acc.fats + f.fats * f.qty);
      assert dailyFood[..i + 1] == dailyFood[..i] + [f];
      FoodTotalAppend(dailyFood[..i], f);
      i := i + 1;
    }
    assert dailyFood[..i] == dailyFood;
    var sum := 0.0;
    var j := 0;
    while j < |dailyWorkouts|
      invariant 0 <= j <= |dailyWorkouts|
      invariant sum == Burned(dailyWorkouts[..j])
    {
      sum := sum + dailyWorkouts[j].calories;
      assert dailyWorkouts[..j + 1] == dailyWorkouts[..j] + [dailyWorkouts[j]];
      BurnedAppend(dailyWorkouts[..j], dailyWorkouts[j]);
      j := j + 1;
    }
    assert dailyWorkouts[..j] == dailyWorkouts;
    t := Totals(acc, sum);
  }

  // ---------------------------------------------------------------------------
  // The seven-day trend

  /** One bar of the trend: the date label and that date's consumed and
      burned calories. */
  datatype TrendPoint = TrendPoint(date: string, consumed: real, burned: real)

  /** `key.slice(5)`: the label drops the first five characters, the year
      and its dash, so "YYYY-MM-DD" becomes "MM-DD"; a shorter key gives the
      empty label. */
  function Label(key: DateKey): (r: string)
    ensures |key| >= 5 ==> |r| == |key| - 5 && key[..5] + r == key
    ensures |key| < 5 ==> r == []
  {
    if |key| >= 5 then key[5..] else ""
  }

  /** The trend point of one date, read from the logs. */
  function PointFor(foodLogs: map<DateKey, seq<FoodEntry>>, workoutLogs: map<DateKey, seq<WorkoutEntry>>,
                    key: DateKey): (p: TrendPoint)
    ensures key !in foodLogs ==> p.consumed == 0.0
    ensures key !in workoutLogs ==> p.burned == 0.0
    ensures p.consumed == FoodTotal(DayOf(foodLogs, key)).calories
    ensures p.burned == Burned(DayOf(workoutLogs, key))
    ensures p.date == Label(key)
  {
    TrendPoint(Label(key), Consumed(DayOf(foodLogs, key)), Burned(DayOf(workoutLogs, key)))
  }

  // ---------------------------------------------------------------------------
  // The ledger state owned by the application

  /** The two logs the application keeps, each replaced as a whole on every
      add and remove. */
  class Tracker {
    var foodLogs: map<DateKey, seq<FoodEntry>>
    var workoutLogs: map<DateKey, seq<WorkoutEntry>>

    /** Both logs start empty. */
    constructor ()
      ensures foodLogs == map[] && workoutLogs == map[]
    {
      foodLogs := map[];
      workoutLogs := map[];
    }

    /** `addFood`: copy the date's day, push the item, install the copy. */
    method AddFood(dateKey: DateKey, foodItem: FoodEntry)
      modifies this
      ensures foodLogs == Appended(old(foodLogs), dateKey, foodItem)
      ensures workoutLogs == old(workoutLogs)
    {
      var day := if dateKey in foodLogs then foodLogs[dateKey] else [];
      day := day + [foodItem];
      foodLogs := foodLogs[dateKey := day];
    }

    /** `removeFood`: copy the date's day, splice out one element, install
        the copy. */
    method RemoveFood(dateKey: DateKey, index: nat)
      modifies this
      ensures foodLogs == Spliced(old(foodLogs), dateKey, index)
      ensures workoutLogs == old(workoutLogs)
    {
      var day := DayOf(foodLogs, dateKey);
      if index < |day| {
        day := day[..index] + day[index + 1..];
      }
      foodLogs := foodLogs[dateKey := day];
    }

    /** `addWorkout`: copy the date's day, push the workout, install the copy. */
    method AddWorkout(dateKey: DateKey, workout: WorkoutEntry)
      modifies this
      ensures workoutLogs == Appended(old(workoutLogs), dateKey, workout)
      ensures foodLogs == old(foodLogs)
    {
      var day := if dateKey in workoutLogs then workoutLogs[dateKey] else [];
      day := day + [workout];
      workoutLogs := workoutLogs[dateKey := day];
    }

    /** `removeWorkout`: copy the date's day, splice out one element, install
        the copy. */
    method RemoveWorkout(dateKey: DateKey, index: nat)
      modifies this
      ensures workoutLogs == Spliced(old(workoutLogs), dateKey, index)
      ensures foodLogs == old(foodLogs)
    {
      var day := DayOf(workoutLogs, dateKey);
      if index < |day| {
        day := day[..index] + day[index + 1..];
      }
      workoutLogs := workoutLogs[dateKey := day];
    }

    /** The totals of the day `today`, read from the logs. */
    method TodayTotals(today: DateKey) returns (t: Totals)
      ensures t.food == FoodTotal(DayOf(foodLogs, today))
      ensures t.burned == Burned(DayOf(workoutLogs, today))
    {
      var dailyFood := DayOf(foodLogs, today);
      var dailyWorkouts := DayOf(workoutLogs, today);
      t := ComputeTotals(dailyFood, dailyWorkouts);
    }

    /** `last7Days`: counting `i` down from 6 to 0, the point of the date
        `i` days before today is pushed, so the result runs oldest first and
        ends at today. `keyOf(d)` is the ISO key of day number `d`. */
    method Last7Days(keyOf: int -> DateKey, today: int) returns (arr: seq<TrendPoint>)
      ensures |arr| == 7
      ensures forall j :: 0 <= j < 7 ==> arr[j] == PointFor(foodLogs, workoutLogs, keyOf(today - 6 + j))
      ensures arr[6].date == Label(keyOf(today))
    {
      arr := [];
      var i := 6;
      while i >= 0
        invariant -1 <= i <= 6
        invariant |arr| == 6 - i
        invariant forall j :: 0 <= j < |arr| ==> arr[j] == PointFor(foodLogs, workoutLogs, keyOf(today - 6 + j))
      {
        var key := keyOf(today - i);
        var f := Consumed(DayOf(foodLogs, key));
        var w := Burned(DayOf(workoutLogs, key));
        arr := arr + [TrendPoint(Label(key), f, w)];
        i := i - 1;
      }
    }
  }
}
