/**
 * The recipe record shared by every service, and the Python truthiness tests
 * the services apply to its optional fields.
 */
module Recipes {
  import opened Basics
  import opened Text

  /**
   * A recipe: ingredient lines, instruction steps and per-step durations in
   * minutes (parallel to `steps` when complete), plus optional summary times.
   */
  datatype Recipe = Recipe(
    name: string,
    ingredients: seq<string>,
    steps: seq<string>,
    prepTime: Option<int>,
    cookTime: Option<int>,
    totalTime: Option<int>,
    stepTimes: seq<int>)

  /** `if value:` on an optional int: `None` and `0` are both false. */
  predicate Truthy(o: Option<int>)
  {
    o.Some? && o.value != 0
  }

  /** The recipe has a duration for every step (`step_times and len(step_times) == len(steps)`). */
  predicate HasCompleteTiming(r: Recipe)
  {
    |r.stepTimes| > 0 && |r.stepTimes| == |r.steps|
  }

  /** The negation of `HasCompleteTiming`, as a function that filters can take. */
  predicate LacksTiming(r: Recipe)
  {
    !HasCompleteTiming(r)
  }

  /** The case-insensitive name comparison `a.lower() == b.lower()`. */
  predicate SameName(a: string, b: string)
  {
    Lower(a) == Lower(b)
  }
  /** The position of the first recipe named `name`, ignoring case (the loop of `get_recipe_by_name`). */
  function FindIndex(recipes: seq<Recipe>, name: string): (r: Option<nat>)
    ensures r.Some? ==> r.value < |recipes| && SameName(recipes[r.value].name, name)
    ensures r.Some? ==> forall j :: 0 <= j < r.value ==> !SameName(recipes[j].name, name)
    ensures r.None? <==> forall j :: 0 <= j < |recipes| ==> !SameName(recipes[j].name, name)
  {
    if recipes == [] then None
    else if SameName(recipes[0].name, name) then Some(0)
    else
      assert forall j :: 1 <= j < |recipes| ==> recipes[j] == recipes[1..][j - 1];
      match FindIndex(recipes[1..], name)
      case None => None
      case Some(k) => Some(k + 1)
  }

  /** `get_recipe_by_name`: the first recipe named `name` ignoring case, if any. */
  function FindByName(recipes: seq<Recipe>, name: string): (r: Option<Recipe>)
    ensures r.Some? <==> exists j :: 0 <= j < |recipes| && SameName(recipes[j].name, name)
    ensures r.Some? ==> r.value in recipes && SameName(r.value.name, name)
    ensures r.Some? ==> exists k :: 0 <= k < |recipes| && recipes[k] == r.value
                                     && forall j :: 0 <= j < k ==> !SameName(recipes[j].name, name)
  {
    match FindIndex(recipes, name)
    case None => None
    case Some(k) => Some(recipes[k])
  }

  /** Some stored recipe already has this name, ignoring case. */
  predicate NameTaken(recipes: seq<Recipe>, name: string)
  {
    FindIndex(recipes, name).Some?
  }
}
