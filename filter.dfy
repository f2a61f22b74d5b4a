/**
 * The recipe browser's filter service: a search over names, ingredients and
 * steps, a filter on timing completeness, and a stable sort, applied in
 * that order with settings read from a criteria dictionary.
 */
module RecipeFilter {
  import opened Basics
  import opened Text
  import opened Recipes
  import opened Sorting

  /** `RecipeSearchCriteria`: the three settings of the browser. */
  datatype SearchCriteria = SearchCriteria(search: string, timingFilter: string, sortBy: string)

  /** The constructor's defaults. */
  const DefaultCriteria: SearchCriteria := SearchCriteria("", "All", "Recent")

  /** `RecipeSearchCriteria.to_dict` */
  function ToDict(c: SearchCriteria): (d: map<string, string>)
    ensures d.Keys == {"search", "timing_filter", "sort_by"}
  {
    map["search" := c.search, "timing_filter" := c.timingFilter, "sort_by" := c.sortBy]
  }

  /** `criteria.get(key, default)` */
  function Setting(criteria: map<string, string>, key: string, default: string): string
  {
    if key in criteria then criteria[key] else default
  }

  /** The criteria `filter_recipes` reads from a dictionary. */
  function CriteriaOf(criteria: map<string, string>): SearchCriteria
  {
    SearchCriteria(Setting(criteria, "search", ""), Setting(criteria, "timing_filter", "All"),
      Setting(criteria, "sort_by", "Recent"))
  }

  /** Reading back the dictionary `to_dict` produces gives the criteria it came from. */
  lemma ToDictRoundTrip(c: SearchCriteria)
    ensures CriteriaOf(ToDict(c)) == c
  {
    var d := ToDict(c);
    assert d["search"] == c.search && d["timing_filter"] == c.timingFilter && d["sort_by"] == c.sortBy;
  }

  // ---------------------------------------------------------------------
  // Search

  /** `_matches_search`: the (already lowercased) term occurs in the lowercased name, an ingredient or a step. */
  predicate MatchesSearch(r: Recipe, term: string)
  {
    Contains(Lower(r.name), term)
    || (exists i :: 0 <= i < |r.ingredients| && Contains(Lower(r.ingredients[i]), term))
    || (exists i :: 0 <= i < |r.steps| && Contains(Lower(r.steps[i]), term))
  }

  /** `_apply_search_filter` */
  function SearchFilter(rs: seq<Recipe>, term: string): seq<Recipe>
  {
    if term == "" then rs else Filter((r: Recipe) => MatchesSearch(r, Lower(term)), rs)
  }

  /**
   * An empty term keeps everything; otherwise a recipe of the input is kept
   * exactly when the lowercased term occurs in its name, an ingredient or a
   * step.
   */
  lemma SearchFilterMembers(rs: seq<Recipe>, term: string)
    ensures term == "" ==> SearchFilter(rs, term) == rs
    ensures term != "" ==>
      forall r :: r in SearchFilter(rs, term) <==> r in rs && MatchesSearch(r, Lower(term))
  {
    if term != "" {
      var f := SearchFilter(rs, term);
      FilterMembers((r: Recipe) => MatchesSearch(r, Lower(term)), rs);
      forall r | r in f ensures r in rs && MatchesSearch(r, Lower(term)) {
        var k :| 0 <= k < |f| && f[k] == r;
      }
      forall r | r in rs && MatchesSearch(r, Lower(term)) ensures r in f {
        var i :| 0 <= i < |rs| && rs[i] == r;
      }
    }
  }

  /** The recipes the search keeps come in their input order. */
  lemma SearchFilterInOrder(rs: seq<Recipe>, term: string)
    ensures exists ix: seq<nat> ::
      (|ix| == |SearchFilter(rs, term)|
       && (forall k :: 0 <= k < |ix| ==> ix[k] < |rs| && rs[ix[k]] == SearchFilter(rs, term)[k])
       && (forall k, l :: 0 <= k < l < |ix| ==> ix[k] < ix[l]))
  {
    if term == "" {
      var ix: seq<nat> := seq(|rs|, i requires 0 <= i < |rs| => i);
      assert forall k :: 0 <= k < |ix| ==> ix[k] < |rs| && rs[ix[k]] == SearchFilter(rs, term)[k];
    } else {
      var ix := FilterIndices((r: Recipe) => MatchesSearch(r, Lower(term)), rs);
    }
  }

  // ---------------------------------------------------------------------
  // Timing completeness

  /** `_apply_timing_filter` */
  function TimingFilter(rs: seq<Recipe>, timingFilter: string): seq<Recipe>
  {
    if timingFilter == "Complete" then Filter(HasCompleteTiming, rs)
    else if timingFilter == "Incomplete" then Filter(LacksTiming, rs)
    else rs
  }

  /**
   * "Complete" and "Incomplete" split the recipes between them: together
   * they are a rearrangement of the input, each keeps only recipes of its
   * kind, and any other setting keeps the whole list.
   */
  lemma TimingFilterPartition(rs: seq<Recipe>, other: string)
    requires other != "Complete" && other != "Incomplete"
    ensures var complete, incomplete := TimingFilter(rs, "Complete"), TimingFilter(rs, "Incomplete");
      multiset(complete) + multiset(incomplete) == multiset(rs)
      && |complete| + |incomplete| == |rs|
      && (forall k :: 0 <= k < |complete| ==> HasCompleteTiming(complete[k]))
      && (forall k :: 0 <= k < |incomplete| ==> !HasCompleteTiming(incomplete[k]))
      && TimingFilter(rs, other) == rs
  {
    FilterPartition(HasCompleteTiming, LacksTiming, rs);
    FilterMembers(HasCompleteTiming, rs);
    FilterMembers(LacksTiming, rs);
  }

  // ---------------------------------------------------------------------
  // Sorting

  /** Python's `<` on strings: lexicographic by character code, a proper prefix first. */
  predicate StrLt(a: string, b: string)
  {
    if a == [] then b != []
    else if b == [] then false
    else if a[0] != b[0] then a[0] < b[0]
    else StrLt(a[1..], b[1..])
  }

  lemma {:induction false} StrLtAsymmetricAt(a: string, b: string)
    requires StrLt(a, b)
    ensures !StrLt(b, a)
  {
    if a != [] && b != [] && a[0] == b[0] {
      StrLtAsymmetricAt(a[1..], b[1..]);
    }
  }

  lemma StrLtAsymmetric()
    ensures Asymmetric(StrLt)
  {
    forall a, b | StrLt(a, b) ensures !StrLt(b, a) {
      StrLtAsymmetricAt(a, b);
    }
  }

  function NameKey(r: Recipe): string { Lower(r.name) }

  function StepsKey(r: Recipe): int { |r.steps| }

  /** `_get_total_time`: the sum of the step times, else a truthy total time, else 0. */
  function TotalTimeKey(r: Recipe): int
  {
    if r.stepTimes != [] then Sum(r.stepTimes)
    else if Truthy(r.totalTime) then r.totalTime.value
    else 0
  }

  /** `_apply_sorting`: `reverse=True` is the stable sort on the flipped order. */
  function ApplySorting(rs: seq<Recipe>, sortBy: string): seq<Recipe>
  {
    if sortBy == "Name" then SortBy(rs, NameKey, StrLt)
    else if sortBy == "Steps" then SortBy(rs, StepsKey, IntGt)
    else if sortBy == "Time" then SortBy(rs, TotalTimeKey, IntGt)
    else rs
  }

  /**
   * Sorting rearranges its input. "Name" orders by lowercased name,
   * "Steps" and "Time" put larger keys first and keep ties in input order,
   * and any other setting keeps the input order.
   */
  lemma ApplySortingProperties(rs: seq<Recipe>, sortBy: string)
    ensures multiset(ApplySorting(rs, sortBy)) == multiset(rs)
    ensures sortBy == "Name" ==> SortedBy(ApplySorting(rs, sortBy), NameKey, StrLt)
    ensures sortBy == "Steps" ==> SortedBy(ApplySorting(rs, sortBy), StepsKey, IntGt)
    ensures sortBy == "Steps" ==>
      forall n :: KeyFilter(ApplySorting(rs, sortBy), StepsKey, n) == KeyFilter(rs, StepsKey, n)
    ensures sortBy == "Time" ==> SortedBy(ApplySorting(rs, sortBy), TotalTimeKey, IntGt)
    ensures sortBy == "Time" ==>
      forall t :: KeyFilter(ApplySorting(rs, sortBy), TotalTimeKey, t) == KeyFilter(rs, TotalTimeKey, t)
    ensures sortBy != "Name" && sortBy != "Steps" && sortBy != "Time" ==> ApplySorting(rs, sortBy) == rs
  {
    IntOrdersAsymmetric();
    if sortBy == "Name" {
      StrLtAsymmetric();
      SortByPermutes(rs, NameKey, StrLt);
      SortBySorted(rs, NameKey, StrLt);
    } else if sortBy == "Steps" {
      SortByPermutes(rs, StepsKey, IntGt);
      SortBySorted(rs, StepsKey, IntGt);
      forall n ensures KeyFilter(ApplySorting(rs, sortBy), StepsKey, n) == KeyFilter(rs, StepsKey, n) {
        SortByStable(rs, StepsKey, IntGt, n);
      }
    } else if sortBy == "Time" {
      SortByPermutes(rs, TotalTimeKey, IntGt);
      SortBySorted(rs, TotalTimeKey, IntGt);
      forall t ensures KeyFilter(ApplySorting(rs, sortBy), TotalTimeKey, t) == KeyFilter(rs, TotalTimeKey, t) {
        SortByStable(rs, TotalTimeKey, IntGt, t);
      }
    }
  }

  // ---------------------------------------------------------------------
  // The whole pipeline

  /** `filter_recipes`: search, then timing filter, then sort, with the dictionary's settings or the defaults. */
  function FilterRecipes(rs: seq<Recipe>, criteria: map<string, string>): seq<Recipe>
  {
    var c := CriteriaOf(criteria);
    ApplySorting(TimingFilter(SearchFilter(rs, c.search), c.timingFilter), c.sortBy)
  }

  /** With no settings at all the recipes come back unchanged, in their order. */
  lemma FilterRecipesDefaults(rs: seq<Recipe>)
    ensures FilterRecipes(rs, map[]) == rs
  {
  }

  /**
   * Every recipe in the output occurs in the input, matches the search and,
   * under "Complete" or "Incomplete", has the timing asked for.
   */
  lemma FilterRecipesFromInput(rs: seq<Recipe>, criteria: map<string, string>)
    ensures var c := CriteriaOf(criteria);
      forall r :: r in FilterRecipes(rs, criteria) ==>
        r in rs
        && (c.search != "" ==> MatchesSearch(r, Lower(c.search)))
        && (c.timingFilter == "Complete" ==> HasCompleteTiming(r))
        && (c.timingFilter == "Incomplete" ==> !HasCompleteTiming(r))
  {
    var c := CriteriaOf(criteria);
    var searched := SearchFilter(rs, c.search);
    var timed := TimingFilter(searched, c.timingFilter);
    SearchFilterMembers(rs, c.search);
    ApplySortingProperties(timed, c.sortBy);
    forall r | r in FilterRecipes(rs, criteria)
      ensures r in timed
    {
      assert r in multiset(FilterRecipes(rs, criteria));
    }
    forall r | r in timed
      ensures r in searched
      ensures c.timingFilter == "Complete" ==> HasCompleteTiming(r)
      ensures c.timingFilter == "Incomplete" ==> !HasCompleteTiming(r)
    {
      var k :| 0 <= k < |timed| && timed[k] == r;
      FilterMembers(HasCompleteTiming, searched);
      FilterMembers(LacksTiming, searched);
    }
  }

  /** Filtering with criteria given as an object reads exactly that object's settings. */
  lemma FilterRecipesOfCriteria(rs: seq<Recipe>, c: SearchCriteria)
    ensures FilterRecipes(rs, ToDict(c)) == ApplySorting(TimingFilter(SearchFilter(rs, c.search), c.timingFilter), c.sortBy)
  {
    ToDictRoundTrip(c);
  }
}
