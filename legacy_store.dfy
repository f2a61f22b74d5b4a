/**
 * The older, unvalidated recipe service: a list of recipes it appends to,
 * case-insensitive lookup, and `organize_recipes`, which flattens the steps
 * of the named recipes into one list without any timing.
 */
module SimpleRecipeStore {
  import opened Basics
  import opened Text
  import opened Recipes

  /** One entry of `organize_recipes`: the step text, no time estimate, and the recipe's stored name. */
  datatype OrganizedStep = OrganizedStep(text: string, estimatedTime: Option<int>, recipeName: string)

  /** The entries one recipe contributes, one per step, in step order. */
  function StepEntries(r: Recipe): (e: seq<OrganizedStep>)
    ensures |e| == |r.steps|
  {
    seq(|r.steps|, k requires 0 <= k < |r.steps| => OrganizedStep(r.steps[k], None, r.name))
  }

  /** The entries a name contributes: those of the first recipe with that name (ignoring case), or none. */
  function EntriesFor(store: seq<Recipe>, name: string): seq<OrganizedStep>
  {
    match FindByName(store, name)
    case None => []
    case Some(r) => StepEntries(r)
  }

  /** What `organize_recipes(names)` returns for a store holding `store`. */
  function Organized(store: seq<Recipe>, names: seq<string>): seq<OrganizedStep>
  {
    if names == [] then []
    else Organized(store, names[..|names| - 1]) + EntriesFor(store, names[|names| - 1])
  }

  /** The number of steps a name contributes: 0 for an unknown name. */
  function StepCount(store: seq<Recipe>, name: string): nat
  {
    match FindByName(store, name)
    case None => 0
    case Some(r) => |r.steps|
  }

  function StepCounts(store: seq<Recipe>, names: seq<string>): (c: seq<int>)
    ensures |c| == |names|
  {
    seq(|names|, i requires 0 <= i < |names| => StepCount(store, names[i]))
  }

  lemma StepCountsSnoc(store: seq<Recipe>, names: seq<string>)
    requires names != []
    ensures StepCounts(store, names) == StepCounts(store, names[..|names| - 1]) + [StepCount(store, names[|names| - 1])]
  {
  }

  /**
   * The organized list has one entry per step of each resolvable name,
   * counted once per occurrence of the name; unknown names add nothing.
   */
  lemma {:induction false} OrganizedLength(store: seq<Recipe>, names: seq<string>)
    ensures |Organized(store, names)| == Sum(StepCounts(store, names))
  {
    if names != [] {
      var init := names[..|names| - 1];
      OrganizedLength(store, init);
      StepCountsSnoc(store, names);
      SumSnoc(StepCounts(store, init), StepCount(store, names[|names| - 1]));
    }
  }

  /** Organizing two lists of names one after the other is organizing their concatenation. */
  lemma {:induction false} OrganizedAppend(store: seq<Recipe>, a: seq<string>, b: seq<string>)
    ensures Organized(store, a + b) == Organized(store, a) + Organized(store, b)
    decreases |b|
  {
    if b != [] {
      var init := b[..|b| - 1];
      assert (a + b)[..|a + b| - 1] == a + init;
      OrganizedAppend(store, a, init);
    } else {
      assert a + b == a;
    }
  }

  /**
   * Every entry has no time estimate and carries the text of one of the
   * steps of a stored recipe together with that recipe's stored name.
   */
  lemma {:induction false} OrganizedEntries(store: seq<Recipe>, names: seq<string>)
    ensures forall k :: 0 <= k < |Organized(store, names)| ==>
      var e := Organized(store, names)[k];
      e.estimatedTime.None?
      && exists r :: r in store && r.name == e.recipeName && e.text in r.steps
  {
    if names != [] {
      var init := names[..|names| - 1];
      OrganizedEntries(store, init);
      var last := EntriesFor(store, names[|names| - 1]);
      var o := Organized(store, names);
      forall k | |Organized(store, init)| <= k < |o|
        ensures o[k].estimatedTime.None? && exists r :: r in store && r.name == o[k].recipeName && o[k].text in r.steps
      {
        var r := FindByName(store, names[|names| - 1]).value;
        var m := k - |Organized(store, init)|;
        assert o[k] == StepEntries(r)[m];
        assert r.steps[m] in r.steps;
      }
    }
  }

  /** A single known name contributes its recipe's steps, in order, each tagged with the stored name. */
  lemma OrganizedSingle(store: seq<Recipe>, name: string)
    requires FindByName(store, name).Some?
    ensures var r := FindByName(store, name).value;
      var o := Organized(store, [name]);
      |o| == |r.steps| && forall k :: 0 <= k < |o| ==> o[k] == OrganizedStep(r.steps[k], None, r.name)
  {
    assert [name][..0] == [];
  }

  class RecipeService {
    var recipes: seq<Recipe>

    /** A service over an already-loaded list of recipes. */
    constructor (stored: seq<Recipe>)
      ensures recipes == stored
    {
      recipes := stored;
    }

    /** `add_recipe`: appends without any check. */
    method AddRecipe(recipe: Recipe)
      modifies this
      ensures recipes == old(recipes) + [recipe]
    {
      recipes := recipes + [recipe];
    }

    /** `list_recipes` */
    method ListRecipes() returns (rs: seq<Recipe>)
      ensures rs == recipes
    {
      rs := recipes;
    }

    /** `get_recipe_by_name`: the first recipe whose name matches ignoring case. */
    method GetRecipeByName(name: string) returns (r: Option<Recipe>)
      ensures r == FindByName(recipes, name)
    {
      var k := 0;
      while k < |recipes|
        invariant 0 <= k <= |recipes|
        invariant forall j :: 0 <= j < k ==> !SameName(recipes[j].name, name)
      {
        if Lower(recipes[k].name) == Lower(name) {
          assert FindIndex(recipes, name) == Some(k);
          return Some(recipes[k]);
        }
        k := k + 1;
      }
      return None;
    }

    /** `organize_recipes`: the nested loop over the names and each found recipe's steps. */
    method OrganizeRecipes(names: seq<string>) returns (organized: seq<OrganizedStep>)
      ensures organized == Organized(recipes, names)
    {
      organized := [];
      for i := 0 to |names|
        invariant organized == Organized(recipes, names[..i])
      {
        assert names[..i + 1][..i] == names[..i];
        var recipe := GetRecipeByName(names[i]);
        if recipe.Some? {
          var r := recipe.value;
          ghost var before := organized;
          for j := 0 to |r.steps|
            invariant organized == before + StepEntries(r)[..j]
          {
            assert StepEntries(r)[..j + 1] == StepEntries(r)[..j] + [OrganizedStep(r.steps[j], None, r.name)];
            organized := organized + [OrganizedStep(r.steps[j], None, r.name)];
          }
          assert StepEntries(r)[..|r.steps|] == StepEntries(r);
        }
      }
      assert names[..|names|] == names;
    }
  }
}
