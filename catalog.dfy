/** The catalog side of the food and workout log
    (src/components/FoodWorkoutLog.jsx): the two fixed tables, the food
    search, the workout-rate lookup and the construction of new entries. */
module Catalog {
  import opened Numeric
  import opened Text
  import opened Ledger

  /** A catalog food: nutrients per serving. */
  datatype FoodItem = FoodItem(name: string, calories: real, protein: real, carbs: real, fats: real)

  /** A catalog workout: kcal burned per minute. */
  datatype WorkoutKind = WorkoutKind(workoutType: string, rate: real)

  const FoodDb: seq<FoodItem> := [
    FoodItem("Grilled Chicken (100g)", 165.0, 31.0, 0.0, 3.6),
    FoodItem("Paneer (100g)", 296.0, 23.0, 6.0, 22.0),
    FoodItem("Boiled Egg (1)", 78.0, 6.0, 0.6, 5.3),
    FoodItem("Banana (1)", 105.0, 1.3, 27.0, 0.4),
    FoodItem("Oats (40g)", 154.0, 5.3, 27.0, 2.6),
    FoodItem("Greek Yogurt (150g)", 146.0, 15.0, 9.0, 4.0),
    FoodItem("Rice (1 cup cooked)", 206.0, 4.3, 45.0, 0.4),
    FoodItem("Dal (1 cup)", 198.0, 12.0, 28.0, 5.0)
  ]

  const WorkoutDb: seq<WorkoutKind> := [
    WorkoutKind("Running", 10.0),
    WorkoutKind("Cycling", 8.0),
    WorkoutKind("Walking", 4.0),
    WorkoutKind("Yoga", 3.0),
    WorkoutKind("Swimming", 9.0)
  ]

  /** The food table: eight foods with distinct names, every nutrient figure
      at least zero, so a catalog food logged with non-negative servings is a
      non-negative entry. */
  lemma FoodDbWellFormed(i: nat, qty: real)
    requires i < |FoodDb| && qty >= 0.0
    ensures |FoodDb| == 8
    ensures forall j, k :: 0 <= j < k < |FoodDb| ==> FoodDb[j].name != FoodDb[k].name
    ensures NonNegativeFood(NewFood(FoodDb[i], qty))
  {
  }

  /** The workout table: five types with distinct names and positive rates. */
  lemma WorkoutDbWellFormed()
    ensures |WorkoutDb| == 5
    ensures forall j, k :: 0 <= j < k < |WorkoutDb| ==> WorkoutDb[j].workoutType != WorkoutDb[k].workoutType
    ensures forall j :: 0 <= j < |WorkoutDb| ==> WorkoutDb[j].rate > 0.0
  {
  }

  /** The search shows at most this many foods. */
  const SearchLimit: nat := 6

  /** The rate assumed for a workout type the table does not know. */
  const FallbackRate: real := 5.0

  // ---------------------------------------------------------------------------
  // Food search

  /** The filter test: the lower-cased name includes the lower-cased query. */
  predicate NameMatches(item: FoodItem, query: string)
  {
    Contains(Lower(item.name), Lower(query))
  }

  /** `filter`: the matching items, in table order. */
  function Matching(items: seq<FoodItem>, query: string): (r: seq<FoodItem>)
    ensures |r| <= |items|
    ensures forall x :: x in r <==> x in items && NameMatches(x, query)
  {
    if items == [] then []
    else if NameMatches(items[0], query) then [items[0]] + Matching(items[1..], query)
    else Matching(items[1..], query)
  }

  /** `xs` is `ys` with some elements left out, the rest in their order. */
  predicate IsSubsequence<T(==)>(xs: seq<T>, ys: seq<T>)
    decreases |ys|
  {
    if xs == [] then true
    else if ys == [] then false
    else (xs[0] == ys[0] && IsSubsequence(xs[1..], ys[1..])) || IsSubsequence(xs, ys[1..])
  }

  /** A prefix of a subsequence is a subsequence. */
  lemma {:induction false} PrefixOfSubsequence<T>(xs: seq<T>, ys: seq<T>, n: nat)
    requires IsSubsequence(xs, ys) && n <= |xs|
    ensures IsSubsequence(xs[..n], ys)
    decreases |ys|
  {
    if n == 0 {
    } else if xs[0] == ys[0] && IsSubsequence(xs[1..], ys[1..]) {
      PrefixOfSubsequence(xs[1..], ys[1..], n - 1);
      assert xs[..n][1..] == xs[1..][..n - 1];
    } else {
      PrefixOfSubsequence(xs, ys[1..], n);
    }
  }

  /** Filtering keeps table order. */
  lemma {:induction false} MatchingIsSubsequence(items: seq<FoodItem>, query: string)
    ensures IsSubsequence(Matching(items, query), items)
  {
    if items != [] {
      MatchingIsSubsequence(items[1..], query);
      var rest := Matching(items[1..], query);
      if NameMatches(items[0], query) {
        assert ([items[0]] + rest)[1..] == rest;
      } else if rest != [] {
        assert IsSubsequence(rest, items[1..]);
      }
    }
  }

  /** When every item matches, filtering keeps them all. */
  lemma {:induction false} MatchingAll(items: seq<FoodItem>, query: string)
    requires forall x :: x in items ==> NameMatches(x, query)
    ensures Matching(items, query) == items
  {
    if items != [] {
      MatchingAll(items[1..], query);
    }
  }

  /** `items.filter(...).slice(0, 6)`: the first six matches, in table
      order. */
  function Search(items: seq<FoodItem>, query: string): (r: seq<FoodItem>)
    ensures |r| <= SearchLimit
    ensures |r| == MinInt(SearchLimit, |Matching(items, query)|)
    ensures r == Matching(items, query)[..|r|]
    ensures forall x :: x in r ==> x in items && NameMatches(x, query)
  {
    var m := Matching(items, query);
    if |m| <= SearchLimit then m else m[..SearchLimit]
  }

  /** The search box over the food table. */
  function SearchFood(query: string): (r: seq<FoodItem>)
    ensures |r| <= SearchLimit
    ensures forall x :: x in r ==> x in FoodDb && NameMatches(x, query)
  {
    Search(FoodDb, query)
  }

  /** The results are in table order. */
  lemma SearchOrdered(items: seq<FoodItem>, query: string)
    ensures IsSubsequence(Search(items, query), items)
  {
    MatchingIsSubsequence(items, query);
    PrefixOfSubsequence(Matching(items, query), items, |Search(items, query)|);
  }

  /** When no more than six foods match, every match is shown. */
  lemma SearchComplete(items: seq<FoodItem>, query: string, x: FoodItem)
    requires x in items && NameMatches(x, query)
    requires |Matching(items, query)| <= SearchLimit
    ensures x in Search(items, query)
  {
  }

  /** An empty query matches every name, so the first six foods show. */
  lemma SearchEmptyQuery()
    ensures SearchFood("") == FoodDb[..6]
  {
    forall x | x in FoodDb ensures NameMatches(x, "") {
      ContainsTrivial(Lower(x.name));
    }
    MatchingAll(FoodDb, "");
  }

  // ---------------------------------------------------------------------------
  // Workout rate

  /** `find`: the index of the first table row of type `t`, or the table's
      length when there is none. */
  function FirstOfType(table: seq<WorkoutKind>, t: string): (i: nat)
    ensures i <= |table|
    ensures forall j :: 0 <= j < i ==> table[j].workoutType != t
    ensures i < |table| ==> table[i].workoutType == t
  {
    if table == [] then 0
    else if table[0].workoutType == t then 0
    else 1 + FirstOfType(table[1..], t)
  }

  /** `find(...)?.rate || 5`: the rate of the first row of that type; 5 when
      no row has it (or, as `||` reads it, when that rate is zero). */
  function WorkoutRate(t: string): (r: real)
    ensures (forall i :: 0 <= i < |WorkoutDb| ==> WorkoutDb[i].workoutType != t) ==> r == FallbackRate
    ensures forall i :: 0 <= i < |WorkoutDb| && WorkoutDb[i].workoutType == t ==> r == WorkoutDb[i].rate
  {
    var i := FirstOfType(WorkoutDb, t);
    if i < |WorkoutDb| && WorkoutDb[i].rate != 0.0 then WorkoutDb[i].rate else FallbackRate
  }

  /** Running burns 10 kcal a minute; an unknown type gets the fallback. */
  lemma WorkoutRateExamples()
    ensures WorkoutRate("Running") == 10.0
    ensures WorkoutRate("Unknown") == 5.0
  {
    assert WorkoutDb[0].workoutType == "Running";
  }

  // ---------------------------------------------------------------------------
  // New entries

  /** The workout the "Add" button logs: the chosen type and minutes, and
      the rounded kcal estimate, stored once and never recomputed. */
  function NewWorkout(t: string, mins: real): (w: WorkoutEntry)
    ensures w.workoutType == t && w.durationMin == mins
    ensures WorkoutRate(t) * mins - 1.0 / 2.0 < w.calories <= WorkoutRate(t) * mins + 1.0 / 2.0
    ensures w.calories == w.calories.Floor as real
  {
    WorkoutEntry(t, mins, Round(WorkoutRate(t) * mins) as real)
  }

  /** The form's initial choice, 30 minutes of running, logs 300 kcal. */
  lemma DefaultWorkout()
    ensures NewWorkout(WorkoutDb[0].workoutType, 30.0).calories == 300.0
  {
    WorkoutRateExamples();
    RoundInt(300);
  }

  /** `{ ...f, qty }`: the catalog item's fields with the chosen servings. */
  function NewFood(item: FoodItem, qty: real): (f: FoodEntry)
    ensures f.name == item.name && f.qty == qty
    ensures f.calories == item.calories && f.protein == item.protein
    ensures f.carbs == item.carbs && f.fats == item.fats
  {
    FoodEntry(item.name, item.calories, item.protein, item.carbs, item.fats, qty)
  }

  /** Logging a catalog food raises the day's calories by its calories per
      serving times the servings chosen. */
  lemma LogCatalogFood(day: seq<FoodEntry>, item: FoodItem, qty: real)
    ensures FoodTotal(day + [NewFood(item, qty)]).calories == FoodTotal(day).calories + item.calories * qty
    ensures FoodTotal(day + [NewFood(item, qty)]).protein == FoodTotal(day).protein + item.protein * qty
  {
    var e := NewFood(item, qty);
    FoodTotalAppend(day, e);
    assert e.calories == item.calories && e.protein == item.protein && e.qty == qty;
  }
}
