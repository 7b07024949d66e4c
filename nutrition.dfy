/**
 * Nutrition logging and the daily totals of `get_nutrition_summary` and of
 * the dashboard: sums over today's logs of `per_100g * quantity / 100`.
 */
module Nutrition {
  import opened Wrappers
  import opened Schema

  datatype Nutrient = Calories | Protein | Carbs | Fat

  /** The food's amount of `n` per 100 grams. */
  function Per100g(food: FoodItem, n: Nutrient): real
  {
    match n
    case Calories => food.caloriesPer100g
    case Protein => food.proteinPer100g
    case Carbs => food.carbsPer100g
    case Fat => food.fatPer100g
  }

  /** One row of the join `NutritionLog JOIN FoodItem`. */
  datatype Entry = Entry(log: NutritionLog, food: FoodItem)

  /** The food row a log's `food_id` refers to, if any. */
  function FoodById(foods: seq<FoodItem>, id: int): (r: Option<FoodItem>)
    ensures r.Some? ==> r.value in foods && r.value.id == id
    ensures r.None? <==> forall f :: f in foods ==> f.id != id
  {
    if |foods| == 0 then None
    else if foods[0].id == id then Some(foods[0])
    else FoodById(foods[1..], id)
  }

  /**
   * The query of today's logs of `uid` joined to their foods: an inner
   * join, so a log whose food row is missing contributes nothing.
   */
  function TodayEntries(logs: seq<NutritionLog>, foods: seq<FoodItem>, uid: nat, today: Date): (r: seq<Entry>)
    ensures forall e :: e in r ==> e.log in logs && e.log.userId == uid && e.log.date == today &&
                                    FoodById(foods, e.log.foodId) == Some(e.food)
    ensures forall l :: l in logs && l.userId == uid && l.date == today && FoodById(foods, l.foodId).Some? ==>
                          Entry(l, FoodById(foods, l.foodId).value) in r
    ensures |r| <= |logs|
  {
    if |logs| == 0 then []
    else
      var l := logs[0];
      var here := if l.userId == uid && l.date == today && FoodById(foods, l.foodId).Some?
                  then [Entry(l, FoodById(foods, l.foodId).value)] else [];
      here + TodayEntries(logs[1..], foods, uid, today)
  }

  /** The join distributes over the log table: each log is joined on its own, in table order. */
  lemma {:induction false} TodayEntriesAppend(a: seq<NutritionLog>, b: seq<NutritionLog>, foods: seq<FoodItem>,
                                              uid: nat, today: Date)
    ensures TodayEntries(a + b, foods, uid, today) ==
            TodayEntries(a, foods, uid, today) + TodayEntries(b, foods, uid, today)
  {
    if |a| == 0 {
      assert a + b == b;
    } else {
      assert (a + b)[0] == a[0];
      assert (a + b)[1..] == a[1..] + b;
      TodayEntriesAppend(a[1..], b, foods, uid, today);
    }
  }

  /**
   * A single log is joined once when it is the caller's, dated today, and
   * its food exists; otherwise it contributes no row.
   */
  lemma TodayEntriesSingle(l: NutritionLog, foods: seq<FoodItem>, uid: nat, today: Date)
    ensures TodayEntries([l], foods, uid, today) ==
            if l.userId == uid && l.date == today && FoodById(foods, l.foodId).Some?
            then [Entry(l, FoodById(foods, l.foodId).value)] else []
  {
    assert [l][1..] == [];
  }

  /** What one entry adds to the total of `n`: `per_100g * (quantity_grams / 100)`. */
  function Contribution(e: Entry, n: Nutrient): real
  {
    Per100g(e.food, n) * (e.log.quantityGrams / 100.0)
  }

  /** The running total the handler's loop reaches after the entries `es`, added left to right. */
  function Total(es: seq<Entry>, n: Nutrient): real
  {
    if |es| == 0 then 0.0 else Total(es[..|es| - 1], n) + Contribution(es[|es| - 1], n)
  }

  /** The total of a concatenation is the sum of the totals. */
  lemma {:induction false} TotalAppend(a: seq<Entry>, b: seq<Entry>, n: Nutrient)
    ensures Total(a + b, n) == Total(a, n) + Total(b, n)
  {
    if |b| == 0 {
      assert a + b == a;
    } else {
      var k := |b| - 1;
      assert (a + b)[..|a| + k] == a + b[..k];
      TotalAppend(a, b[..k], n);
    }
  }

  /** With non-negative nutrient values and quantities every total is non-negative. */
  lemma {:induction false} TotalNonNegative(es: seq<Entry>, n: Nutrient)
    requires forall e :: e in es ==> Per100g(e.food, n) >= 0.0 && e.log.quantityGrams >= 0.0
    ensures Total(es, n) >= 0.0
  {
    if |es| > 0 {
      var k := |es| - 1;
      assert forall e :: e in es[..k] ==> e in es;
      TotalNonNegative(es[..k], n);
      assert es[k] in es;
    }
  }

  /** The JSON body of `get_nutrition_summary`. */
  datatype Totals = Totals(calories: real, protein: real, carbs: real, fat: real)

  /** The accumulation loop of `get_nutrition_summary`. */
  method Summarize(es: seq<Entry>) returns (t: Totals)
    ensures t.calories == Total(es, Calories) && t.protein == Total(es, Protein)
    ensures t.carbs == Total(es, Carbs) && t.fat == Total(es, Fat)
    ensures es == [] ==> t == Totals(0.0, 0.0, 0.0, 0.0)
  {
    var calories, protein, carbs, fat := 0.0, 0.0, 0.0, 0.0;
    var i := 0;
    while i < |es|
      invariant 0 <= i <= |es|
      invariant calories == Total(es[..i], Calories) && protein == Total(es[..i], Protein)
      invariant carbs == Total(es[..i], Carbs) && fat == Total(es[..i], Fat)
    {
      var multiplier := es[i].log.quantityGrams / 100.0;
      calories := calories + es[i].food.caloriesPer100g * multiplier;
      protein := protein + es[i].food.proteinPer100g * multiplier;
      carbs := carbs + es[i].food.carbsPer100g * multiplier;
      fat := fat + es[i].food.fatPer100g * multiplier;
      assert es[..i + 1][..i] == es[..i];
      i := i + 1;
    }
    assert es[..i] == es;
    t := Totals(calories, protein, carbs, fat);
  }

  /** Python's `sum(xs)`: a left fold from 0 over the list. */
  function SumReals(xs: seq<real>): real
  {
    if |xs| == 0 then 0.0 else SumReals(xs[..|xs| - 1]) + xs[|xs| - 1]
  }

  /** The terms of the dashboard's `sum`, one per joined row, in join order. */
  function CalorieTerms(es: seq<Entry>): seq<real>
  {
    seq(|es|, i requires 0 <= i < |es| => (es[i].log.quantityGrams / 100.0) * es[i].food.caloriesPer100g)
  }

  /** Summing the dashboard's terms gives the summary's calorie total. */
  lemma {:induction false} CalorieSumIsTotal(es: seq<Entry>)
    ensures SumReals(CalorieTerms(es)) == Total(es, Calories)
  {
    if |es| > 0 {
      var k := |es| - 1;
      forall i | 0 <= i < k ensures CalorieTerms(es)[..k][i] == CalorieTerms(es[..k])[i] {
        assert es[..k][i] == es[i];
      }
      assert CalorieTerms(es)[..k] == CalorieTerms(es[..k]);
      CalorieSumIsTotal(es[..k]);
    }
  }

  /**
   * The dashboard's `sum([(log.quantity_grams / 100) * food.calories_per_100g ...])`:
   * the same calorie total `get_nutrition_summary` reports for the same rows.
   */
  function DashboardCalories(es: seq<Entry>): (r: real)
    ensures r == Total(es, Calories)
    ensures es == [] ==> r == 0.0
  {
    CalorieSumIsTotal(es);
    SumReals(CalorieTerms(es))
  }

  /** 100 g of a 50 kcal food and 200 g of a 30 kcal food make 110 kcal. */
  lemma SummaryExample(a: Entry, b: Entry)
    requires a.log.quantityGrams == 100.0 && a.food.caloriesPer100g == 50.0
    requires b.log.quantityGrams == 200.0 && b.food.caloriesPer100g == 30.0
    ensures Total([a, b], Calories) == 110.0
  {
    assert [a, b][..1] == [a];
    assert [a][..0] == [];
    assert Contribution(a, Calories) == 50.0;
    assert Contribution(b, Calories) == 60.0;
    assert Total([a], Calories) == 50.0;
  }

  /** The `FoodItem.id` primary key: no two food rows share an id. */
  predicate DistinctFoodIds(foods: seq<FoodItem>)
  {
    forall i, j :: 0 <= i < j < |foods| ==> foods[i].id != foods[j].id
  }

  /** With distinct ids, the food found for an id is the only row carrying it. */
  lemma FoodByIdUnique(foods: seq<FoodItem>, id: int)
    requires DistinctFoodIds(foods)
    ensures forall f :: f in foods && f.id == id ==> FoodById(foods, id) == Some(f)
  {
    forall f | f in foods && f.id == id ensures FoodById(foods, id) == Some(f) {
      var r := FoodById(foods, id);
      var i :| 0 <= i < |foods| && foods[i] == f;
      var j :| 0 <= j < |foods| && foods[j] == r.value;
    }
  }

  /** The nutrition-log table's constraints, for a user table of `userCount` rows. */
  predicate TableValid(logs: seq<NutritionLog>, userCount: nat)
  {
    SequentialIds(logs, (l: NutritionLog) => l.id) && forall i :: 0 <= i < |logs| ==> 1 <= logs[i].userId <= userCount
  }

  /** The log `log_nutrition` appends; the meal type defaults to "other". */
  function NewNutritionLog(id: nat, uid: nat, foodId: int, quantityGrams: real,
                           mealType: Option<string>, today: Date): (l: NutritionLog)
    ensures l.id == id
    ensures l.userId == uid && l.foodId == foodId && l.quantityGrams == quantityGrams && l.date == today
    ensures mealType.None? ==> l.mealType == "other"
    ensures mealType.Some? ==> l.mealType == mealType.value
  {
    NutritionLog(id, uid, foodId, quantityGrams, today, if mealType.Some? then mealType.value else "other")
  }
}
