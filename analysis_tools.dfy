/**
 * The collection analysis panel: the step and recipe durations gathered from
 * the stored recipes, the quick / medium / long step buckets, the longest
 * recipe, and the index from cleaned ingredient names to the recipes that
 * use them.
 */
module AnalysisTools {
  import opened Basics
  import opened Text
  import opened Recipes
  import CollectionOverview

  // ---------------------------------------------------------------------
  // Timing data

  /** Every recipe's step times, one recipe after another. */
  function AllStepTimes(rs: seq<Recipe>): seq<int>
  {
    if rs == [] then [] else AllStepTimes(rs[..|rs| - 1]) + rs[|rs| - 1].stepTimes
  }

  /** One total per recipe that has step times, in store order. */
  function RecipeTimes(rs: seq<Recipe>): seq<int>
  {
    if rs == [] then []
    else
      var last := rs[|rs| - 1];
      RecipeTimes(rs[..|rs| - 1]) + (if last.stepTimes != [] then [Sum(last.stepTimes)] else [])
  }

  predicate HasStepTimes(r: Recipe) { r.stepTimes != [] }

  function StepTimeCount(r: Recipe): int { |r.stepTimes| }

  /** `_collect_timing_data`: `extend` the step times and `append` each recipe's sum. */
  method CollectTimingData(rs: seq<Recipe>) returns (stepTimes: seq<int>, recipeTimes: seq<int>)
    ensures stepTimes == AllStepTimes(rs)
    ensures recipeTimes == RecipeTimes(rs)
  {
    stepTimes, recipeTimes := [], [];
    var i := 0;
    while i < |rs|
      invariant 0 <= i <= |rs|
      invariant stepTimes == AllStepTimes(rs[..i])
      invariant recipeTimes == RecipeTimes(rs[..i])
    {
      assert rs[..i + 1][..i] == rs[..i];
      if rs[i].stepTimes != [] {
        stepTimes := stepTimes + rs[i].stepTimes;
        recipeTimes := recipeTimes + [Sum(rs[i].stepTimes)];
      }
      i := i + 1;
    }
    assert rs[..i] == rs;
  }

  /** There is one recipe total per recipe with step times. */
  lemma {:induction false} RecipeTimesCount(rs: seq<Recipe>)
    ensures |RecipeTimes(rs)| == |Filter(HasStepTimes, rs)|
  {
    if rs != [] {
      RecipeTimesCount(rs[..|rs| - 1]);
      FilterSnoc(HasStepTimes, rs, |rs| - 1);
      assert rs[..|rs| - 1 + 1] == rs;
    }
  }

  /** The collected step list holds as many entries as all recipes have step times. */
  lemma {:induction false} AllStepTimesCount(rs: seq<Recipe>)
    ensures |AllStepTimes(rs)| == Sum(Map(StepTimeCount, rs))
  {
    if rs != [] {
      AllStepTimesCount(rs[..|rs| - 1]);
      SumMapSnoc(StepTimeCount, rs);
    }
  }

  /** Both collected lists add up to the same number of minutes. */
  lemma {:induction false} TimingDataSums(rs: seq<Recipe>)
    ensures Sum(AllStepTimes(rs)) == Sum(RecipeTimes(rs))
  {
    if rs != [] {
      var init, last := rs[..|rs| - 1], rs[|rs| - 1];
      TimingDataSums(init);
      SumAppend(AllStepTimes(init), last.stepTimes);
      if last.stepTimes != [] {
        SumSnoc(RecipeTimes(init), Sum(last.stepTimes));
      } else {
        assert AllStepTimes(rs) == AllStepTimes(init);
        assert RecipeTimes(rs) == RecipeTimes(init);
      }
    }
  }

  /** The step time at position `k` of a recipe is in the collected step times. */
  lemma {:induction false} AllStepTimesHolds(rs: seq<Recipe>, i: nat, k: nat)
    requires i < |rs| && k < |rs[i].stepTimes|
    ensures rs[i].stepTimes[k] in AllStepTimes(rs)
  {
    var init := rs[..|rs| - 1];
    if i < |rs| - 1 {
      assert init[i] == rs[i];
      AllStepTimesHolds(init, i, k);
    } else {
      assert AllStepTimes(rs)[|AllStepTimes(init)| + k] == rs[i].stepTimes[k];
    }
  }

  /** The overview's total cooking time is the sum of the collected step times. */
  lemma {:induction false} TotalCookingTimeIsStepSum(rs: seq<Recipe>)
    ensures CollectionOverview.CalculateStats(rs).totalCookingTime == Sum(AllStepTimes(rs))
  {
    if rs != [] {
      var init, last := rs[..|rs| - 1], rs[|rs| - 1];
      TotalCookingTimeIsStepSum(init);
      SumMapSnoc(CollectionOverview.CookingTimeOf, rs);
      SumAppend(AllStepTimes(init), last.stepTimes);
    }
  }

  // ---------------------------------------------------------------------
  // Step distribution and the longest recipe

  /** At most five minutes. */
  predicate IsQuick(t: int) { t <= 5 }

  /** More than five and at most twenty minutes. */
  predicate IsMedium(t: int) { 5 < t <= 20 }

  /** More than twenty minutes. */
  predicate IsLong(t: int) { t > 20 }

  /** The three buckets of `_render_step_distribution` count every step time exactly once. */
  lemma {:induction false} BucketsPartition(ts: seq<int>)
    ensures CountIf(IsQuick, ts) + CountIf(IsMedium, ts) + CountIf(IsLong, ts) == |ts|
  {
    if ts != [] {
      BucketsPartition(ts[1..]);
    }
  }

  /** The longest of the durations, or 0 when there are none. */
  function Longest(ts: seq<int>): (m: int)
    ensures ts == [] ==> m == 0
    ensures ts != [] ==> m in ts
    ensures forall i :: 0 <= i < |ts| ==> ts[i] <= m
  {
    if ts == [] then 0
    else if |ts| == 1 then ts[0]
    else
      assert forall i :: 1 <= i < |ts| ==> ts[i] == ts[1..][i - 1];
      Max(ts[0], Longest(ts[1..]))
  }

  // ---------------------------------------------------------------------
  // Ingredient data

  /** An ingredient lower-cased and stripped of surrounding whitespace. */
  function Cleaned(ingredient: string): string { Strip(Lower(ingredient)) }

  /** One ingredient occurrence: its cleaned name and the name of the recipe it is in. */
  datatype Use = Use(ingredient: string, recipeName: string)

  function UsesOf(r: Recipe): (u: seq<Use>)
    ensures |u| == |r.ingredients|
  {
    seq(|r.ingredients|, k requires 0 <= k < |r.ingredients| => Use(Cleaned(r.ingredients[k]), r.name))
  }

  /** Every ingredient occurrence of the stored recipes, in the order the loops visit them. */
  function Uses(rs: seq<Recipe>): seq<Use>
  {
    if rs == [] then [] else Uses(rs[..|rs| - 1]) + UsesOf(rs[|rs| - 1])
  }

  function IngredientOf(u: Use): string { u.ingredient }

  /** Recording one occurrence: a new key starts an empty list, then the recipe name is appended. */
  function Record(index: map<string, seq<string>>, u: Use): map<string, seq<string>>
  {
    index[u.ingredient := (if u.ingredient in index then index[u.ingredient] else []) + [u.recipeName]]
  }

  /** The dictionary `index` after recording the occurrences `us` in order. */
  function Recorded(index: map<string, seq<string>>, us: seq<Use>): map<string, seq<string>>
  {
    if us == [] then index else Record(Recorded(index, us[..|us| - 1]), us[|us| - 1])
  }

  /** Recording two runs of occurrences one after the other is recording their concatenation. */
  lemma {:induction false} RecordedAppend(index: map<string, seq<string>>, a: seq<Use>, b: seq<Use>)
    ensures Recorded(index, a + b) == Recorded(Recorded(index, a), b)
    decreases |b|
  {
    if b == [] {
      assert a + b == a;
    } else {
      assert (a + b)[..|a + b| - 1] == a + b[..|b| - 1];
      RecordedAppend(index, a, b[..|b| - 1]);
    }
  }

  /** The `ingredient_recipes` dictionary built from nothing. */
  function Index(us: seq<Use>): map<string, seq<string>>
  {
    Recorded(map[], us)
  }

  /** Start an empty list for a new key, then append the recipe name to the key's list. */
  method AppendName(index: map<string, seq<string>>, ingredient: string, recipeName: string)
    returns (index': map<string, seq<string>>)
    ensures index' == Record(index, Use(ingredient, recipeName))
  {
    index' := index;
    if ingredient !in index' {
      index' := index'[ingredient := []];
    }
    index' := index'[ingredient := index'[ingredient] + [recipeName]];
  }

  /** The inner loop of `_collect_ingredient_data`: one recipe's ingredients, cleaned and recorded in order. */
  method RecordIngredients(all: seq<string>, index: map<string, seq<string>>, recipe: Recipe)
    returns (all': seq<string>, index': map<string, seq<string>>)
    ensures all' == all + Map(IngredientOf, UsesOf(recipe))
    ensures index' == Recorded(index, UsesOf(recipe))
  {
    all', index' := all, index;
    ghost var us := UsesOf(recipe);
    var j := 0;
    while j < |recipe.ingredients|
      invariant 0 <= j <= |recipe.ingredients|
      invariant all' == all + Map(IngredientOf, us[..j])
      invariant index' == Recorded(index, us[..j])
    {
      var cleaned := Cleaned(recipe.ingredients[j]);
      assert us[j] == Use(cleaned, recipe.name);
      RecordStep(index, us, j);
      index' := AppendName(index', cleaned, recipe.name);
      all' := all' + [cleaned];
      j := j + 1;
    }
    assert us[..j] == us;
  }

  /** Recording and listing one more occurrence. */
  lemma RecordStep(index: map<string, seq<string>>, us: seq<Use>, j: nat)
    requires j < |us|
    ensures Recorded(index, us[..j + 1]) == Record(Recorded(index, us[..j]), us[j])
    ensures Map(IngredientOf, us[..j + 1]) == Map(IngredientOf, us[..j]) + [us[j].ingredient]
  {
    assert us[..j + 1][..j] == us[..j];
    assert us[..j + 1] == us[..j] + [us[j]];
    MapAppend(IngredientOf, us[..j], [us[j]]);
    assert Map(IngredientOf, [us[j]]) == [us[j].ingredient];
  }

  /** `_collect_ingredient_data`: the loop over the stored recipes. */
  method CollectIngredientData(rs: seq<Recipe>) returns (all: seq<string>, index: map<string, seq<string>>)
    ensures all == Map(IngredientOf, Uses(rs))
    ensures index == Index(Uses(rs))
  {
    all, index := [], map[];
    var i := 0;
    while i < |rs|
      invariant 0 <= i <= |rs|
      invariant all == Map(IngredientOf, Uses(rs[..i]))
      invariant index == Index(Uses(rs[..i]))
    {
      assert rs[..i + 1][..i] == rs[..i];
      MapAppend(IngredientOf, Uses(rs[..i]), UsesOf(rs[i]));
      RecordedAppend(map[], Uses(rs[..i]), UsesOf(rs[i]));
      all, index := RecordIngredients(all, index, rs[i]);
      i := i + 1;
    }
    assert rs[..i] == rs;
  }

  /**
   * The dictionary's keys are exactly the cleaned ingredient names, each key
   * lists one recipe name per occurrence of that ingredient, and each listed
   * name is the recipe of such an occurrence.
   */
  lemma {:induction false} IndexProperties(us: seq<Use>)
    ensures forall x :: x in Index(us) <==> x in Map(IngredientOf, us)
    ensures forall x :: x in Index(us) ==> |Index(us)[x]| == multiset(Map(IngredientOf, us))[x]
    ensures forall x, n :: x in Index(us) && n in Index(us)[x] ==> Use(x, n) in us
  {
    if us != [] {
      var init, last := us[..|us| - 1], us[|us| - 1];
      IndexProperties(init);
      assert us == init + [last];
      MapAppend(IngredientOf, init, [last]);
      assert Map(IngredientOf, us) == Map(IngredientOf, init) + [last.ingredient];
      forall x, n | x in Index(us) && n in Index(us)[x] ensures Use(x, n) in us {
        if x == last.ingredient && n !in (if x in Index(init) then Index(init)[x] else []) {
          assert Index(us) == Record(Index(init), last);
          assert n == last.recipeName;
        }
      }
    }
  }

  /** `all_ingredients` has one entry per ingredient of every recipe. */
  lemma {:induction false} UsesCount(rs: seq<Recipe>)
    ensures |Uses(rs)| == Sum(Map(IngredientCount, rs))
  {
    if rs != [] {
      UsesCount(rs[..|rs| - 1]);
      SumMapSnoc(IngredientCount, rs);
    }
  }

  function IngredientCount(r: Recipe): int { |r.ingredients| }

  /** Each ingredient of each recipe is recorded, cleaned, under that recipe's name. */
  lemma {:induction false} UsesHolds(rs: seq<Recipe>, i: nat, k: nat)
    requires i < |rs| && k < |rs[i].ingredients|
    ensures Use(Cleaned(rs[i].ingredients[k]), rs[i].name) in Uses(rs)
  {
    var init := rs[..|rs| - 1];
    if i < |rs| - 1 {
      assert init[i] == rs[i];
      UsesHolds(init, i, k);
    } else {
      assert Uses(rs)[|Uses(init)| + k] == UsesOf(rs[i])[k];
    }
  }

  /** The number of unique ingredients is the number of keys, and never exceeds the total uses. */
  lemma UniqueIngredients(rs: seq<Recipe>)
    ensures var all := Map(IngredientOf, Uses(rs));
      Index(Uses(rs)).Keys == (set x | x in all) && |Index(Uses(rs)).Keys| <= |all|
  {
    var all := Map(IngredientOf, Uses(rs));
    IndexProperties(Uses(rs));
    DistinctAtMostLength(all);
  }
}
