/**
 * The "recipes needing attention" panel: the per-recipe checks for missing
 * or mismatched step times, a missing total time, missing content and
 * implausible step durations, and the list of recipes with any issue.
 * Issues are values; the emoji-prefixed messages are left to the display.
 */
module ProblemRecipes {
  import opened Basics
  import opened Recipes

  datatype Issue =
    | NoStepTimes
    | StepTimeCountMismatch
    | MissingTotalTime
    | NoIngredients
    | NoSteps
    | VeryShortSteps(count: nat)
    | VeryLongSteps(count: nat)

  /** Shorter than a minute. */
  predicate IsVeryShort(t: int) { t < 1 }

  /** Longer than two hours. */
  predicate IsVeryLong(t: int) { t > 120 }

  /** `_check_timing_issues` */
  function CheckTimingIssues(ts: seq<int>): seq<Issue>
  {
    var short, long := CountIf(IsVeryShort, ts), CountIf(IsVeryLong, ts);
    (if short > 0 then [VeryShortSteps(short)] else []) + (if long > 0 then [VeryLongSteps(long)] else [])
  }

  /**
   * One issue per kind of implausible duration present, carrying how many
   * durations are of that kind, and no other issue.
   */
  lemma TimingIssuesReport(ts: seq<int>)
    ensures var issues := CheckTimingIssues(ts);
      |issues| <= 2
      && (forall k :: 0 <= k < |issues| ==> issues[k].VeryShortSteps? || issues[k].VeryLongSteps?)
      && (VeryShortSteps(CountIf(IsVeryShort, ts)) in issues <==> exists i :: 0 <= i < |ts| && IsVeryShort(ts[i]))
      && (VeryLongSteps(CountIf(IsVeryLong, ts)) in issues <==> exists i :: 0 <= i < |ts| && IsVeryLong(ts[i]))
      && (forall n :: VeryShortSteps(n) in issues ==> n == CountIf(IsVeryShort, ts) && n >= 1)
      && (forall n :: VeryLongSteps(n) in issues ==> n == CountIf(IsVeryLong, ts) && n >= 1)
  {
  }

  /** No timing issue exactly when every duration is between one minute and two hours. */
  lemma TimingIssuesEmpty(ts: seq<int>)
    ensures CheckTimingIssues(ts) == [] <==> forall i :: 0 <= i < |ts| ==> 1 <= ts[i] <= 120
  {
    var issues := CheckTimingIssues(ts);
    TimingIssuesReport(ts);
    if issues != [] {
      assert issues[0].VeryShortSteps? || issues[0].VeryLongSteps?;
    } else {
      forall i | 0 <= i < |ts| ensures 1 <= ts[i] <= 120 {
        assert !IsVeryShort(ts[i]) && !IsVeryLong(ts[i]);
      }
    }
  }

  /** The first check: no step times at all, or not one per step. */
  function TimesIssues(r: Recipe): seq<Issue>
  {
    if r.stepTimes == [] then [NoStepTimes] else if |r.stepTimes| != |r.steps| then [StepTimeCountMismatch] else []
  }

  /** The total time is reported missing only for a recipe with step times. */
  function TotalTimeIssues(r: Recipe): seq<Issue>
  {
    if !Truthy(r.totalTime) && r.stepTimes != [] then [MissingTotalTime] else []
  }

  function ContentIssues(r: Recipe): seq<Issue>
  {
    (if r.ingredients == [] then [NoIngredients] else []) + (if r.steps == [] then [NoSteps] else [])
  }

  function DurationIssues(r: Recipe): seq<Issue>
  {
    if r.stepTimes != [] then CheckTimingIssues(r.stepTimes) else []
  }

  /** The duration check raises only duration issues. */
  lemma DurationIssuesKinds(r: Recipe)
    ensures forall x :: x in DurationIssues(r) ==> x.VeryShortSteps? || x.VeryLongSteps?
  {
  }

  /** The issues `_check_recipe_issues` reports, in the order it checks them. */
  function RecipeIssues(r: Recipe): seq<Issue>
  {
    TimesIssues(r) + TotalTimeIssues(r) + ContentIssues(r) + DurationIssues(r)
  }

  /** `_check_recipe_issues`, appending one check at a time. */
  method CheckRecipeIssues(r: Recipe) returns (issues: seq<Issue>)
    ensures issues == RecipeIssues(r)
  {
    issues := [];
    if r.stepTimes == [] {
      issues := issues + [NoStepTimes];
    } else if |r.stepTimes| != |r.steps| {
      issues := issues + [StepTimeCountMismatch];
    }
    assert issues == TimesIssues(r);
    if !(r.totalTime.Some? && r.totalTime.value != 0) && r.stepTimes != [] {
      issues := issues + [MissingTotalTime];
    }
    assert issues == TimesIssues(r) + TotalTimeIssues(r);
    ghost var checked := issues;
    if r.ingredients == [] {
      issues := issues + [NoIngredients];
    }
    if r.steps == [] {
      issues := issues + [NoSteps];
    }
    assert issues == checked + ContentIssues(r);
    if r.stepTimes != [] {
      issues := issues + CheckTimingIssues(r.stepTimes);
    }
    assert issues == checked + ContentIssues(r) + DurationIssues(r);
  }

  /** The recipe's timing and content raise no concern. */
  ghost predicate Healthy(r: Recipe)
  {
    HasCompleteTiming(r) && Truthy(r.totalTime) && r.ingredients != []
    && forall i :: 0 <= i < |r.stepTimes| ==> 1 <= r.stepTimes[i] <= 120
  }

  /** An issue is in the report exactly when one of the checks raised it. */
  lemma RecipeIssuesIn(r: Recipe, x: Issue)
    ensures x in RecipeIssues(r) <==>
      x in TimesIssues(r) || x in TotalTimeIssues(r) || x in ContentIssues(r) || x in DurationIssues(r)
  {
  }

  /**
   * Each issue is reported exactly when its condition holds: no step times
   * and a count mismatch exclude each other, and a missing total time is
   * reported only for a recipe with step times.
   */
  lemma RecipeIssuesReports(r: Recipe)
    ensures var issues := RecipeIssues(r);
      (NoStepTimes in issues <==> r.stepTimes == [])
      && (StepTimeCountMismatch in issues <==> r.stepTimes != [] && |r.stepTimes| != |r.steps|)
      && !(NoStepTimes in issues && StepTimeCountMismatch in issues)
      && (MissingTotalTime in issues <==> !Truthy(r.totalTime) && r.stepTimes != [])
      && (NoIngredients in issues <==> r.ingredients == [])
      && (NoSteps in issues <==> r.steps == [])
  {
    TimesChecksReport(r);
    ContentChecksReport(r);
  }

  /** The step-time and total-time checks, within the whole report. */
  lemma TimesChecksReport(r: Recipe)
    ensures var issues := RecipeIssues(r);
      (NoStepTimes in issues <==> r.stepTimes == [])
      && (StepTimeCountMismatch in issues <==> r.stepTimes != [] && |r.stepTimes| != |r.steps|)
      && (MissingTotalTime in issues <==> !Truthy(r.totalTime) && r.stepTimes != [])
  {
    DurationIssuesKinds(r);
    RecipeIssuesIn(r, NoStepTimes);
    RecipeIssuesIn(r, StepTimeCountMismatch);
    RecipeIssuesIn(r, MissingTotalTime);
  }

  /** The content checks, within the whole report. */
  lemma ContentChecksReport(r: Recipe)
    ensures var issues := RecipeIssues(r);
      (NoIngredients in issues <==> r.ingredients == [])
      && (NoSteps in issues <==> r.steps == [])
  {
    DurationIssuesKinds(r);
    RecipeIssuesIn(r, NoIngredients);
    RecipeIssuesIn(r, NoSteps);
  }

  /** A recipe has no issue exactly when it is healthy. */
  lemma RecipeIssuesEmptyIff(r: Recipe)
    ensures RecipeIssues(r) == [] <==> Healthy(r)
  {
    if r.stepTimes != [] {
      TimingIssuesEmpty(r.stepTimes);
    }
  }

  /** A recipe listed by the panel, with its issues. */
  datatype Problem = Problem(recipe: Recipe, issues: seq<Issue>)

  predicate HasIssues(r: Recipe) { RecipeIssues(r) != [] }

  /** What `_identify_problem_recipes` returns for the stored recipes `rs`. */
  function Problems(rs: seq<Recipe>): seq<Problem>
  {
    if rs == [] then []
    else
      var last := rs[|rs| - 1];
      Problems(rs[..|rs| - 1]) + (if HasIssues(last) then [Problem(last, RecipeIssues(last))] else [])
  }

  function RecipeOf(p: Problem): Recipe { p.recipe }

  /** The panel lists exactly the recipes with at least one issue, in store order. */
  lemma {:induction false} ProblemsAreFlagged(rs: seq<Recipe>)
    ensures Map(RecipeOf, Problems(rs)) == Filter(HasIssues, rs)
  {
    if rs != [] {
      var init, last := rs[..|rs| - 1], rs[|rs| - 1];
      ProblemsAreFlagged(init);
      var tail := if HasIssues(last) then [Problem(last, RecipeIssues(last))] else [];
      assert Problems(rs) == Problems(init) + tail;
      MapAppend(RecipeOf, Problems(init), tail);
      assert Map(RecipeOf, tail) == if HasIssues(last) then [last] else [];
      FilterSnoc(HasIssues, rs, |rs| - 1);
      assert rs[..|rs| - 1 + 1] == rs;
    }
  }

  /** Each listed recipe comes with its full, non-empty list of issues. */
  lemma {:induction false} ProblemsCarryIssues(rs: seq<Recipe>)
    ensures forall k :: 0 <= k < |Problems(rs)| ==>
      Problems(rs)[k].issues == RecipeIssues(Problems(rs)[k].recipe) != []
  {
    if rs != [] {
      ProblemsCarryIssues(rs[..|rs| - 1]);
    }
  }

  /** `_identify_problem_recipes`, as the loop over the stored recipes. */
  method IdentifyProblemRecipes(rs: seq<Recipe>) returns (problems: seq<Problem>)
    ensures problems == Problems(rs)
  {
    problems := [];
    var i := 0;
    while i < |rs|
      invariant 0 <= i <= |rs|
      invariant problems == Problems(rs[..i])
    {
      assert rs[..i + 1][..i] == rs[..i];
      var issues := CheckRecipeIssues(rs[i]);
      if issues != [] {
        problems := problems + [Problem(rs[i], issues)];
      }
      i := i + 1;
    }
    assert rs[..i] == rs;
  }
}
