/**
 * The validation service: checks on a single recipe, on the target time, on
 * the recipes chosen for a meal, and whether the chosen recipes fit in the
 * time left before the target. Instants are whole seconds, durations whole
 * minutes; the caller passes the current time.
 */
module Validation {
  import opened Basics
  import opened Text
  import opened Config
  import opened Recipes

  /** The problems `validate_recipe` can report, in the order it checks for them. */
  datatype RecipeIssue =
    | NameRequired
    | NoSteps
    | NoIngredients
    | StepCountMismatch
    | StepTimeTooShort
    | StepTimeTooLong
    | NegativePrepTime
    | NegativeCookTime

  /** Position of each check in `validate_recipe`. */
  function Rank(i: RecipeIssue): nat
  {
    match i
    case NameRequired => 0
    case NoSteps => 1
    case NoIngredients => 2
    case StepCountMismatch => 3
    case StepTimeTooShort => 4
    case StepTimeTooLong => 5
    case NegativePrepTime => 6
    case NegativeCookTime => 7
  }

  /** The issues in check order: `AllIssues[Rank(i)] == i`. */
  const AllIssues: seq<RecipeIssue> := [NameRequired, NoSteps, NoIngredients, StepCountMismatch,
    StepTimeTooShort, StepTimeTooLong, NegativePrepTime, NegativeCookTime]

  lemma RankIndexes(i: RecipeIssue)
    ensures Rank(i) < |AllIssues| && AllIssues[Rank(i)] == i
  {
  }

  lemma IndexRanks(k: nat)
    requires k < |AllIssues|
    ensures Rank(AllIssues[k]) == k
  {
  }

  /** Strictly increasing in check order, hence also free of repeats. */
  ghost predicate InCheckOrder(issues: seq<RecipeIssue>)
  {
    forall i, j :: 0 <= i < j < |issues| ==> Rank(issues[i]) < Rank(issues[j])
  }

  /** The issues whose check, from position `k` on, failed (`failed[j]` for the check of rank `j`). */
  function Pick(failed: seq<bool>, k: nat): (issues: seq<RecipeIssue>)
    requires k <= |failed| <= |AllIssues|
    ensures forall x :: x in issues ==> k <= Rank(x)
    decreases |failed| - k
  {
    if k == |failed| then []
    else
      var rest := Pick(failed, k + 1);
      assert Rank(AllIssues[k]) == k;
      (if failed[k] then [AllIssues[k]] else []) + rest
  }

  lemma {:induction false} PickInOrder(failed: seq<bool>, k: nat)
    requires k <= |failed| <= |AllIssues|
    ensures InCheckOrder(Pick(failed, k))
    decreases |failed| - k
  {
    if k < |failed| {
      PickInOrder(failed, k + 1);
      IndexRanks(k);
    }
  }

  lemma {:induction false} PickMember(failed: seq<bool>, k: nat, x: RecipeIssue)
    requires k <= |failed| == |AllIssues|
    ensures x in Pick(failed, k) <==> k <= Rank(x) && failed[Rank(x)]
    decreases |failed| - k
  {
    RankIndexes(x);
    if k < |failed| {
      PickMember(failed, k + 1, x);
      IndexRanks(k);
      var rest := Pick(failed, k + 1);
      assert Pick(failed, k) == (if failed[k] then [AllIssues[k]] else []) + rest;
      assert x == AllIssues[k] <==> Rank(x) == k;
    }
  }

  /** Which of the checks of `validate_recipe` fail, in check order. */
  function FailedChecks(r: Recipe): (failed: seq<bool>)
    ensures |failed| == |AllIssues|
  {
    [ Strip(r.name) == [],
      r.steps == [],
      r.ingredients == [],
      r.stepTimes != [] && |r.stepTimes| != |r.steps|,
      r.stepTimes != [] && exists k :: 0 <= k < |r.stepTimes| && r.stepTimes[k] < MinStepTime,
      r.stepTimes != [] && exists k :: 0 <= k < |r.stepTimes| && r.stepTimes[k] > MaxStepTime,
      Truthy(r.prepTime) && r.prepTime.value < 0,
      Truthy(r.cookTime) && r.cookTime.value < 0 ]
  }

  /**
   * `validate_recipe`: one entry per failed check, in check order. Step-time
   * checks apply only when step times are given; a zero prep or cook time
   * counts as absent.
   */
  function ValidateRecipe(r: Recipe): (issues: seq<RecipeIssue>)
    ensures InCheckOrder(issues)
  {
    PickInOrder(FailedChecks(r), 0);
    Pick(FailedChecks(r), 0)
  }

  /** Each issue is reported exactly when its condition holds. */
  lemma ValidateRecipeReports(r: Recipe)
    ensures var issues := ValidateRecipe(r);
      (NameRequired in issues <==> Strip(r.name) == [])
      && (NoSteps in issues <==> r.steps == [])
      && (NoIngredients in issues <==> r.ingredients == [])
      && (StepCountMismatch in issues <==> r.stepTimes != [] && |r.stepTimes| != |r.steps|)
      && (StepTimeTooShort in issues <==> exists k :: 0 <= k < |r.stepTimes| && r.stepTimes[k] < MinStepTime)
      && (StepTimeTooLong in issues <==> exists k :: 0 <= k < |r.stepTimes| && r.stepTimes[k] > MaxStepTime)
      && (NegativePrepTime in issues <==> Truthy(r.prepTime) && r.prepTime.value < 0)
      && (NegativeCookTime in issues <==> Truthy(r.cookTime) && r.cookTime.value < 0)
  {
    var f := FailedChecks(r);
    forall x ensures x in ValidateRecipe(r) <==> f[Rank(x)] {
      PickMember(f, 0, x);
    }
  }

  /**
   * A recipe passes validation when it has a name, steps and ingredients,
   * any step times it has are one per step and within the allowed range, and
   * neither its prep nor its cook time is negative.
   */
  ghost predicate RecipeIsValid(r: Recipe)
  {
    Strip(r.name) != [] && r.steps != [] && r.ingredients != []
    && (forall k :: 0 <= k < |r.stepTimes| ==> MinStepTime <= r.stepTimes[k] <= MaxStepTime)
    && (r.stepTimes == [] || |r.stepTimes| == |r.steps|)
    && !(r.prepTime.Some? && r.prepTime.value < 0)
    && !(r.cookTime.Some? && r.cookTime.value < 0)
  }

  lemma ValidateRecipeEmptyIff(r: Recipe)
    ensures ValidateRecipe(r) == [] <==> RecipeIsValid(r)
  {
    ValidateRecipeReports(r);
    var issues := ValidateRecipe(r);
    if issues != [] {
      assert issues[0] in issues;
    }
  }

  /** The outcome of `validate_target_time`. */
  datatype TargetWarning = TightTiming | FarAway
  datatype TargetCheck = TargetCheck(valid: bool, warnings: seq<TargetWarning>, errors: seq<string>)

  /** The single error message for a target that is not in the future. */
  const TargetInPast: string := "Target time must be in the future"

  /** `validate_target_time(target, now)`; the thresholds are in seconds (10 minutes, 24 hours). */
  function ValidateTargetTime(target: int, now: int): (r: TargetCheck)
    ensures r.valid <==> target > now
    ensures r.valid <==> r.errors == []
    ensures !r.valid ==> r.errors == [TargetInPast] && r.warnings == []
    ensures TightTiming in r.warnings <==> 0 < target - now < 60 * MinPrepTime
    ensures FarAway in r.warnings <==> target - now > 24 * 60 * 60
    ensures |r.warnings| <= 1
  {
    if target <= now then TargetCheck(false, [], [TargetInPast])
    else
      var diff := (target - now) as real / 60.0;
      TargetCheck(true,
        (if diff < MinPrepTime as real then [TightTiming] else [])
        + (if diff > (24 * 60) as real then [FarAway] else []),
        [])
  }

  /** `{r.name: r for r in all_recipes}`: later recipes replace earlier ones with the same name. */
  function RecipeIndex(all: seq<Recipe>): map<string, Recipe>
  {
    if all == [] then map[] else RecipeIndex(all[..|all| - 1])[all[|all| - 1].name := all[|all| - 1]]
  }

  /** `all[i]` is the last recipe in `all` named `name`. */
  ghost predicate LastNamed(all: seq<Recipe>, i: int, name: string)
  {
    0 <= i < |all| && all[i].name == name && forall j :: i < j < |all| ==> all[j].name != name
  }

  /** A name is in the index exactly when some recipe has it. */
  lemma {:induction false} RecipeIndexDomain(all: seq<Recipe>, name: string)
    ensures name in RecipeIndex(all) <==> exists i :: 0 <= i < |all| && all[i].name == name
  {
    if all != [] {
      var init := all[..|all| - 1];
      RecipeIndexDomain(init, name);
      if name in RecipeIndex(init) {
        var i :| 0 <= i < |init| && init[i].name == name;
        assert all[i] == init[i];
      }
      if i :| 0 <= i < |all| - 1 && all[i].name == name {
        assert init[i] == all[i];
      }
    }
  }

  /** The index maps a name to the last recipe that has it. */
  lemma {:induction false} RecipeIndexLast(all: seq<Recipe>, name: string)
    requires name in RecipeIndex(all)
    ensures exists i :: LastNamed(all, i, name) && RecipeIndex(all)[name] == all[i]
  {
    var init := all[..|all| - 1];
    if all[|all| - 1].name == name {
      assert LastNamed(all, |all| - 1, name);
    } else {
      RecipeIndexLast(init, name);
      var i :| LastNamed(init, i, name) && RecipeIndex(init)[name] == init[i];
      assert all[i] == init[i];
      assert LastNamed(all, i, name);
    }
  }

  /** An error of `validate_recipe_selection`. */
  datatype SelectionError =
    | NothingSelected
    | RecipeNotFound(name: string)
    | InvalidRecipe(name: string, issue: RecipeIssue)
    | NoValidRecipes

  datatype Selection = Selection(
    valid: bool,
    errors: seq<SelectionError>,
    validRecipes: seq<Recipe>,
    invalidRecipes: seq<string>)

  /** The selected name is known and its recipe passes validation. */
  predicate Accepted(name: string, index: map<string, Recipe>)
  {
    name in index && ValidateRecipe(index[name]) == []
  }

  /** The errors reported for one selected name. */
  function NameErrors(name: string, index: map<string, Recipe>): seq<SelectionError>
  {
    if name !in index then [RecipeNotFound(name)]
    else
      var issues := ValidateRecipe(index[name]);
      seq(|issues|, k requires 0 <= k < |issues| => InvalidRecipe(name, issues[k]))
  }

  function AcceptedRecipes(names: seq<string>, index: map<string, Recipe>): seq<Recipe>
  {
    if names == [] then []
    else
      var last := names[|names| - 1];
      AcceptedRecipes(names[..|names| - 1], index) + (if Accepted(last, index) then [index[last]] else [])
  }

  function RejectedNames(names: seq<string>, index: map<string, Recipe>): seq<string>
  {
    if names == [] then []
    else
      var last := names[|names| - 1];
      RejectedNames(names[..|names| - 1], index) + (if Accepted(last, index) then [] else [last])
  }

  function SelectionErrors(names: seq<string>, index: map<string, Recipe>): seq<SelectionError>
  {
    if names == [] then []
    else SelectionErrors(names[..|names| - 1], index) + NameErrors(names[|names| - 1], index)
  }

  /** `validate_recipe_selection` */
  method ValidateRecipeSelection(names: seq<string>, all: seq<Recipe>) returns (res: Selection)
    ensures names == [] ==> res == Selection(false, [NothingSelected], [], [])
    ensures names != [] ==>
      var index := RecipeIndex(all);
      res.validRecipes == AcceptedRecipes(names, index)
      && res.invalidRecipes == RejectedNames(names, index)
      && res.errors == SelectionErrors(names, index) + (if res.validRecipes == [] then [NoValidRecipes] else [])
      && (res.valid <==> res.validRecipes != [])
  {
    if names == [] {
      return Selection(false, [NothingSelected], [], []);
    }
    var index := RecipeIndex(all);
    var errors: seq<SelectionError> := [];
    var valid: seq<Recipe> := [];
    var invalid: seq<string> := [];
    var i := 0;
    while i < |names|
      invariant 0 <= i <= |names|
      invariant valid == AcceptedRecipes(names[..i], index)
      invariant invalid == RejectedNames(names[..i], index)
      invariant errors == SelectionErrors(names[..i], index)
    {
      var name := names[i];
      assert names[..i + 1][..i] == names[..i];
      if name !in index {
        invalid := invalid + [name];
        errors := errors + [RecipeNotFound(name)];
      } else {
        var recipe := index[name];
        var issues := ValidateRecipe(recipe);
        if issues != [] {
          invalid := invalid + [name];
          errors := errors + seq(|issues|, k requires 0 <= k < |issues| => InvalidRecipe(name, issues[k]));
        } else {
          valid := valid + [recipe];
        }
      }
      i := i + 1;
    }
    assert names[..i] == names;
    var ok := true;
    if valid == [] {
      ok := false;
      errors := errors + [NoValidRecipes];
    }
    res := Selection(ok, errors, valid, invalid);
  }

  /**
   * Every selected name ends up on exactly one side: a name is rejected
   * exactly when it is unknown or its recipe fails validation, and every
   * accepted recipe is a known recipe that passes validation.
   */
  lemma {:induction false} SelectionPartition(names: seq<string>, all: seq<Recipe>)
    ensures var index := RecipeIndex(all);
      |AcceptedRecipes(names, index)| + |RejectedNames(names, index)| == |names|
      && (forall n :: n in RejectedNames(names, index) <==> n in names && !Accepted(n, index))
      && (forall r :: r in AcceptedRecipes(names, index) ==> r in all && ValidateRecipe(r) == [])
  {
    var index := RecipeIndex(all);
    if names != [] {
      var init := names[..|names| - 1];
      var last := names[|names| - 1];
      SelectionPartition(init, all);
      assert names == init + [last];
      if Accepted(last, index) {
        RecipeIndexLast(all, last);
      }
    }
  }

  /** What a recipe contributes to the estimate, if anything: total, else prep plus cook, else its steps. */
  function RecipeEstimate(r: Recipe): Option<int>
  {
    if Truthy(r.totalTime) then Some(r.totalTime.value)
    else if Truthy(r.prepTime) && Truthy(r.cookTime) then Some(r.prepTime.value + r.cookTime.value)
    else if r.stepTimes != [] then Some(Sum(r.stepTimes))
    else None
  }

  /** The running maximum, from 0, of the recipes' estimates. */
  function TimeNeeded(recipes: seq<Recipe>): int
  {
    if recipes == [] then 0
    else
      var m := TimeNeeded(recipes[..|recipes| - 1]);
      var e := RecipeEstimate(recipes[|recipes| - 1]);
      if e.Some? then Max(m, e.value) else m
  }

  /** `estimate_total_time_needed` */
  method EstimateTotalTimeNeeded(recipes: seq<Recipe>) returns (needed: int)
    ensures needed == TimeNeeded(recipes)
  {
    needed := 0;
    var i := 0;
    while i < |recipes|
      invariant 0 <= i <= |recipes|
      invariant needed == TimeNeeded(recipes[..i])
    {
      var r := recipes[i];
      assert recipes[..i + 1][..i] == recipes[..i];
      if r.totalTime.Some? && r.totalTime.value != 0 {
        needed := Max(needed, r.totalTime.value);
      } else if r.prepTime.Some? && r.prepTime.value != 0 && r.cookTime.Some? && r.cookTime.value != 0 {
        var total := r.prepTime.value + r.cookTime.value;
        needed := Max(needed, total);
      } else if r.stepTimes != [] {
        var total := Sum(r.stepTimes);
        needed := Max(needed, total);
      }
      i := i + 1;
    }
    assert recipes[..i] == recipes;
  }

  /**
   * The estimate is the largest of 0 and every recipe's own estimate: it is
   * at least each of them, and it is 0 or one of them.
   */
  lemma {:induction false} TimeNeededIsMax(recipes: seq<Recipe>)
    ensures TimeNeeded(recipes) >= 0
    ensures forall i :: 0 <= i < |recipes| && RecipeEstimate(recipes[i]).Some? ==>
      TimeNeeded(recipes) >= RecipeEstimate(recipes[i]).value
    ensures TimeNeeded(recipes) == 0
      || exists i :: 0 <= i < |recipes| && RecipeEstimate(recipes[i]) == Some(TimeNeeded(recipes))
  {
    if recipes != [] {
      var init := recipes[..|recipes| - 1];
      TimeNeededIsMax(init);
      forall i | 0 <= i < |init| ensures recipes[i] == init[i] {
      }
      if TimeNeeded(recipes) != 0 && TimeNeeded(recipes) == TimeNeeded(init) {
        var i :| 0 <= i < |init| && RecipeEstimate(init[i]) == Some(TimeNeeded(init));
        assert RecipeEstimate(recipes[i]) == Some(TimeNeeded(recipes));
      }
    }
  }

  /** The outcome of `validate_timeline_feasibility`; minutes as the source reports them. */
  datatype Feasibility = Feasibility(
    feasible: bool,
    tight: bool,
    shortage: Option<real>,
    timeNeeded: int,
    timeAvailable: int)

  /** `validate_timeline_feasibility(recipes, target, now)` */
  method ValidateTimelineFeasibility(recipes: seq<Recipe>, target: int, now: int) returns (r: Feasibility)
    ensures r.timeNeeded == TimeNeeded(recipes)
    ensures r.timeAvailable == TruncDiv(target - now, 60)
    ensures r.feasible <==> 60 * r.timeNeeded <= target - now
    ensures r.feasible <==> r.shortage.None?
    ensures !r.feasible ==> r.shortage == Some(r.timeNeeded as real - (target - now) as real / 60.0)
    ensures r.tight <==> r.feasible && r.timeNeeded as real > (target - now) as real / 60.0 * WarningThreshold
  {
    var available := (target - now) as real / 60.0;
    var needed := EstimateTotalTimeNeeded(recipes);
    r := Feasibility(true, false, None, needed, TruncDiv(target - now, 60));
    if needed as real > available {
      r := r.(feasible := false, shortage := Some(needed as real - available));
    } else if needed as real > available * WarningThreshold {
      r := r.(tight := true);
    }
  }
}
