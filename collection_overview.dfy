/**
 * The collection overview panel: counts over the stored recipes, the
 * completion rate, the total cooking time split into hours and minutes, the
 * progress fraction and the completion tip.
 */
module CollectionOverview {
  import opened Basics
  import opened Text
  import opened Recipes

  /** What `_calculate_stats` returns. */
  datatype Stats = Stats(totalRecipes: nat, totalSteps: int, recipesWithCompleteTimes: nat, totalCookingTime: int)

  function StepCountOf(r: Recipe): int { |r.steps| }

  /** A recipe's total step time when it has step times, and 0 for the others. */
  function CookingTimeOf(r: Recipe): int { if r.stepTimes != [] then Sum(r.stepTimes) else 0 }

  /** `_calculate_stats` over the stored recipes. */
  function CalculateStats(rs: seq<Recipe>): (s: Stats)
    ensures s.totalRecipes == |rs|
    ensures s.recipesWithCompleteTimes <= s.totalRecipes
    ensures s.recipesWithCompleteTimes == 0 <==> forall i :: 0 <= i < |rs| ==> !HasCompleteTiming(rs[i])
    ensures s.recipesWithCompleteTimes == |Filter(HasCompleteTiming, rs)|
  {
    CountIfIsFilterLength(HasCompleteTiming, rs);
    Stats(|rs|, Sum(Map(StepCountOf, rs)), CountIf(HasCompleteTiming, rs), Sum(Map(CookingTimeOf, rs)))
  }

  /** The step total is never negative and is at least the number of recipes that have steps. */
  lemma {:induction false} TotalStepsBounds(rs: seq<Recipe>)
    ensures CalculateStats(rs).totalSteps >= CountIf((r: Recipe) => r.steps != [], rs)
    ensures CalculateStats(rs).totalSteps >= 0
  {
    if rs != [] {
      TotalStepsBounds(rs[1..]);
      assert Map(StepCountOf, rs) == [StepCountOf(rs[0])] + Map(StepCountOf, rs[1..]);
    }
  }

  /** Every step of every recipe, recipe after recipe. */
  function AllSteps(rs: seq<Recipe>): seq<string>
  {
    if rs == [] then [] else rs[0].steps + AllSteps(rs[1..])
  }

  /** The step total counts every step of the collection exactly once. */
  lemma {:induction false} TotalStepsIsAllSteps(rs: seq<Recipe>)
    ensures CalculateStats(rs).totalSteps == |AllSteps(rs)|
  {
    if rs != [] {
      TotalStepsIsAllSteps(rs[1..]);
      assert Map(StepCountOf, rs) == [StepCountOf(rs[0])] + Map(StepCountOf, rs[1..]);
    }
  }

  /** `complete / total * 100`, or 0 for an empty collection. */
  function CompletionPercent(s: Stats): (pct: real)
    requires s.recipesWithCompleteTimes <= s.totalRecipes
    ensures 0.0 <= pct <= 100.0
    ensures pct == 100.0 <==> s.totalRecipes > 0 && s.recipesWithCompleteTimes == s.totalRecipes
  {
    if s.totalRecipes > 0 then s.recipesWithCompleteTimes as real / s.totalRecipes as real * 100.0 else 0.0
  }

  /** `total_minutes // 60` and `total_minutes % 60`, which Python floors as Dafny does for a positive divisor. */
  function SplitHoursMinutes(totalMinutes: int): (hm: (int, nat))
    ensures hm.0 * 60 + hm.1 == totalMinutes
    ensures hm.1 < 60
  {
    (totalMinutes / 60, totalMinutes % 60)
  }

  /** The label of `_render_time_metric`: "Hh Mm" when there is at least an hour, else "Mm". */
  function TimeLabel(totalMinutes: int): (shown: string)
    ensures shown != [] && shown[|shown| - 1] == 'm'
    ensures 'h' in shown <==> totalMinutes >= 60
  {
    var hm := SplitHoursMinutes(totalMinutes);
    NatToStringDigits(hm.1);
    if hm.0 > 0 then
      NatToStringDigits(hm.0);
      var h := NatToString(hm.0);
      assert h[..] + "h " + NatToString(hm.1) + "m" == (h + "h " + NatToString(hm.1)) + "m";
      assert (h + "h " + NatToString(hm.1) + "m")[|h|] == 'h';
      h + "h " + NatToString(hm.1) + "m"
    else
      NatToString(hm.1) + "m"
  }

  /** `_render_progress_bar`: the completed fraction, shown only for a non-empty collection. */
  function Progress(s: Stats): (p: Option<real>)
    requires s.recipesWithCompleteTimes <= s.totalRecipes
    ensures p.Some? <==> s.totalRecipes > 0
    ensures p.Some? ==> 0.0 <= p.value <= 1.0
    ensures p.Some? ==> p.value * s.totalRecipes as real == s.recipesWithCompleteTimes as real
  {
    if s.totalRecipes == 0 then None else Some(s.recipesWithCompleteTimes as real / s.totalRecipes as real)
  }

  /** `_render_completion_tip`: the number of recipes still missing timing, if any. */
  function CompletionTip(s: Stats): (missing: Option<nat>)
    ensures missing.Some? <==> s.recipesWithCompleteTimes < s.totalRecipes
    ensures missing.Some? ==> missing.value > 0
    ensures missing.Some? ==> missing.value + s.recipesWithCompleteTimes == s.totalRecipes
  {
    if s.recipesWithCompleteTimes < s.totalRecipes then Some(s.totalRecipes - s.recipesWithCompleteTimes) else None
  }

  /** The tip counts exactly the recipes without a duration for every step. */
  lemma {:induction false} TipCountsIncomplete(rs: seq<Recipe>)
    ensures var s := CalculateStats(rs);
      (CompletionTip(s).Some? ==> CompletionTip(s).value == CountIf(LacksTiming, rs))
      && (CompletionTip(s).None? <==> forall i :: 0 <= i < |rs| ==> HasCompleteTiming(rs[i]))
  {
    CompleteCounts(rs);
  }

  lemma {:induction false} CompleteCounts(rs: seq<Recipe>)
    ensures CountIf(HasCompleteTiming, rs) + CountIf(LacksTiming, rs) == |rs|
  {
    if rs != [] {
      CompleteCounts(rs[1..]);
    }
  }
}
