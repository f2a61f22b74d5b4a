/**
 * The recipe service: the in-memory list of stored recipes and the
 * operations that read and change it — case-insensitive lookup, adding,
 * updating and deleting recipes, filling in missing step times with the
 * duration predictor, naming imported recipes, re-parsing a recipe's step
 * times, analysing them, and organising a selection of recipes into one
 * timeline. Loading and saving the list is not modelled: a service starts
 * from a given list. Instants are whole seconds, durations whole minutes;
 * the caller passes the current time wherever the service reads the clock.
 */
module RecipeStore {
  import opened Basics
  import opened Text
  import opened Recipes
  import V = Validation
  import T = Timeline
  import P = StepTimeParser
  import S = Sorting

  /** Why a recipe was refused (the `reason` of `InvalidRecipeException`). */
  datatype InvalidReason =
    | Issues(issues: seq<V.RecipeIssue>)
    | DuplicateName
    | BadSelection(errors: seq<V.SelectionError>)

  /** What made a requested timing impossible. */
  datatype TimingProblem =
    | TargetRejected(errors: seq<string>)
    | NotEnoughTime(shortage: real)
    | StartsInPast(issues: seq<T.TimelineIssue>)

  /** The service's exceptions: all of them are `MealTimeException`s. */
  datatype MealTimeError =
    | RecipeNotFound(recipeName: string)
    | InvalidRecipe(recipeName: string, reason: InvalidReason)
    | TimelineFailure(message: string)
    | ImpossibleTiming(problem: TimingProblem, requiredStartTime: Option<int>)

  /** The outcome of an operation that returns nothing but may raise. */
  datatype Outcome = Done | Failed(error: MealTimeError)

  /** The outcome of an operation that returns a value or raises. */
  datatype Result<R> = Ok(value: R) | Err(error: MealTimeError)

  /** No two stored recipes have the same name, ignoring case. */
  predicate DistinctNames(recipes: seq<Recipe>)
  {
    forall i, j :: 0 <= i < j < |recipes| ==> !SameName(recipes[i].name, recipes[j].name)
  }

  // ---------------------------------------------------------------------
  // Filling in missing step times

  /** The recipe gets one predicted duration per step. */
  function WithPredictedTimes(p: P.Predictor, r: Recipe): Recipe
  {
    r.(stepTimes := Map((s: string) => P.Predict(p, s), r.steps))
  }

  /** One recipe as `generate_missing_step_times` leaves it. */
  function Filled(p: P.Predictor, r: Recipe): Recipe
  {
    if HasCompleteTiming(r) then r else WithPredictedTimes(p, r)
  }

  function FillTimes(p: P.Predictor, recipes: seq<Recipe>): (r: seq<Recipe>)
    ensures |r| == |recipes|
  {
    Map((x: Recipe) => Filled(p, x), recipes)
  }

  function NameOf(r: Recipe): string { r.name }

  /** The names `generate_missing_step_times` reports: the recipes that lacked a duration per step. */
  function LackingNames(recipes: seq<Recipe>): seq<string>
  {
    Map(NameOf, Filter(LacksTiming, recipes))
  }

  /**
   * Afterwards every recipe has exactly one duration per step, all of at
   * least a minute for the recipes that were filled in; recipes that already
   * had one per step are untouched, and names never change.
   */
  lemma FillTimesProperties(p: P.Predictor, recipes: seq<Recipe>)
    ensures var filled := FillTimes(p, recipes);
      forall i :: 0 <= i < |recipes| ==>
        |filled[i].stepTimes| == |filled[i].steps|
        && filled[i].name == recipes[i].name && filled[i].steps == recipes[i].steps
        && (HasCompleteTiming(recipes[i]) ==> filled[i] == recipes[i])
        && (LacksTiming(recipes[i]) ==>
              forall k :: 0 <= k < |filled[i].stepTimes| ==> filled[i].stepTimes[k] >= 1)
  {
  }

  /** Filling in times changes no name, so distinct names stay distinct. */
  lemma FillTimesKeepsNames(p: P.Predictor, recipes: seq<Recipe>)
    requires DistinctNames(recipes)
    ensures DistinctNames(FillTimes(p, recipes))
  {
  }

  /** A recipe is counted as updated exactly when it lacked a duration per step. */
  lemma {:induction false} LackingNamesCount(recipes: seq<Recipe>)
    ensures |LackingNames(recipes)| == CountIf(LacksTiming, recipes)
  {
    if recipes != [] {
      var init, last := recipes[..|recipes| - 1], recipes[|recipes| - 1];
      LackingNamesCount(init);
      FilterSnoc(LacksTiming, recipes, |recipes| - 1);
      assert recipes[..|recipes| - 1] == init && recipes[..|recipes|] == recipes;
      CountIfSnoc(LacksTiming, recipes, |recipes| - 1);
    }
  }

  /** One round of the filling loop: the prefix grows by one filled recipe. */
  lemma FillTimesStep(p: P.Predictor, rs: seq<Recipe>, i: nat)
    requires i < |rs|
    ensures FillTimes(p, rs[..i + 1]) + rs[i + 1..] == (FillTimes(p, rs[..i]) + rs[i..])[i := Filled(p, rs[i])]
  {
    assert rs[..i + 1][..i] == rs[..i];
    assert rs[..i + 1] == rs[..i] + [rs[i]];
    MapAppend((x: Recipe) => Filled(p, x), rs[..i], [rs[i]]);
    assert FillTimes(p, rs[..i + 1]) == FillTimes(p, rs[..i]) + [Filled(p, rs[i])];
    SnocUpdate(FillTimes(p, rs[..i]), Filled(p, rs[i]), rs, i);
  }

  lemma LackingNamesStep(rs: seq<Recipe>, i: nat)
    requires i < |rs|
    ensures LackingNames(rs[..i + 1]) == LackingNames(rs[..i]) + (if LacksTiming(rs[i]) then [rs[i].name] else [])
  {
    FilterSnoc(LacksTiming, rs, i);
    MapAppend(NameOf, Filter(LacksTiming, rs[..i]), if LacksTiming(rs[i]) then [rs[i]] else []);
  }

  // ---------------------------------------------------------------------
  // Naming an imported recipe

  /** The `n`-th name tried for an import: the original, then "original (1)", "original (2)", ... */
  function Candidate(original: string, n: nat): (c: string)
  {
    if n == 0 then original else original + " (" + NatToString(n) + ")"
  }

  /**
   * `name` is the first candidate that no stored recipe has (ignoring case):
   * every earlier candidate is taken.
   */
  ghost predicate FirstFreeCandidate(recipes: seq<Recipe>, original: string, name: string)
  {
    exists n: nat :: name == Candidate(original, n) && !NameTaken(recipes, name)
      && forall j: nat :: j < n ==> NameTaken(recipes, Candidate(original, j))
  }

  /** Only one name is the first free candidate. */
  lemma FirstFreeCandidateUnique(recipes: seq<Recipe>, original: string, a: string, b: string)
    requires FirstFreeCandidate(recipes, original, a) && FirstFreeCandidate(recipes, original, b)
    ensures a == b
  {
    var n: nat :| a == Candidate(original, n) && !NameTaken(recipes, a)
      && forall j: nat :: j < n ==> NameTaken(recipes, Candidate(original, j));
    var m: nat :| b == Candidate(original, m) && !NameTaken(recipes, b)
      && forall j: nat :: j < m ==> NameTaken(recipes, Candidate(original, j));
  }

  lemma LowerCandidate(original: string, n: nat)
    requires n >= 1
    ensures Lower(Candidate(original, n)) == Lower(original) + " (" + NatToString(n) + ")"
  {
    var d := NatToString(n);
    NatToStringNoUpper(n);
    LowerOfLower(d);
    LowerOfLower(" (");
    LowerOfLower(")");
    LowerAppend(original + " (" + d, ")");
    LowerAppend(original + " (", d);
    LowerAppend(original, " (");
  }

  /** Different candidates differ even ignoring case. */
  lemma CandidatesDistinct(original: string, a: nat, b: nat)
    requires Lower(Candidate(original, a)) == Lower(Candidate(original, b))
    ensures a == b
  {
    var l := Lower(original);
    if a >= 1 && b >= 1 {
      LowerCandidate(original, a);
      LowerCandidate(original, b);
      var da, db := NatToString(a), NatToString(b);
      var sa, sb := l + " (" + da + ")", l + " (" + db + ")";
      assert |da| == |db|;
      assert da == sa[|l| + 2..|sa| - 1];
      assert db == sb[|l| + 2..|sb| - 1];
      NatToStringInjective(a, b);
    } else if a >= 1 {
      LowerCandidate(original, a);
    } else if b >= 1 {
      LowerCandidate(original, b);
    }
  }

  function LowerNames(recipes: seq<Recipe>): set<string>
  {
    set i | 0 <= i < |recipes| :: Lower(recipes[i].name)
  }

  lemma {:induction false} LowerNamesBound(recipes: seq<Recipe>)
    ensures |LowerNames(recipes)| <= |recipes|
  {
    if recipes != [] {
      var init, last := recipes[..|recipes| - 1], recipes[|recipes| - 1];
      LowerNamesBound(init);
      assert LowerNames(recipes) == LowerNames(init) + {Lower(last.name)} by {
        forall x | x in LowerNames(recipes) ensures x in LowerNames(init) + {Lower(last.name)} {
          var i :| 0 <= i < |recipes| && x == Lower(recipes[i].name);
          if i < |init| {
            assert init[i] == recipes[i];
          }
        }
        forall x | x in LowerNames(init) ensures x in LowerNames(recipes) {
          var i :| 0 <= i < |init| && x == Lower(init[i].name);
          assert init[i] == recipes[i];
        }
      }
    }
  }

  /** The lowercased forms of the first `c` candidates. */
  function LowerCandidates(original: string, c: nat): set<string>
  {
    if c == 0 then {} else LowerCandidates(original, c - 1) + {Lower(Candidate(original, c - 1))}
  }

  lemma {:induction false} LowerCandidatesMember(original: string, c: nat, y: string)
    requires y in LowerCandidates(original, c)
    ensures exists j: nat :: j < c && y == Lower(Candidate(original, j))
  {
    if y == Lower(Candidate(original, c - 1)) {
      assert c - 1 < c;
    } else {
      LowerCandidatesMember(original, c - 1, y);
    }
  }

  lemma {:induction false} LowerCandidatesSize(original: string, c: nat)
    ensures |LowerCandidates(original, c)| == c
  {
    if c > 0 {
      LowerCandidatesSize(original, c - 1);
      var x := Lower(Candidate(original, c - 1));
      if x in LowerCandidates(original, c - 1) {
        LowerCandidatesMember(original, c - 1, x);
        var j: nat :| j < c - 1 && x == Lower(Candidate(original, j));
        CandidatesDistinct(original, j, c - 1);
      }
    }
  }

  /** The store cannot hold more taken candidates than it has recipes. */
  lemma TakenCandidatesBound(recipes: seq<Recipe>, original: string, c: nat)
    requires forall j: nat :: j < c ==> NameTaken(recipes, Candidate(original, j))
    ensures c <= |recipes|
  {
    assert LowerCandidates(original, c) <= LowerNames(recipes) by {
      forall x | x in LowerCandidates(original, c) ensures x in LowerNames(recipes) {
        LowerCandidatesMember(original, c, x);
        var j: nat :| j < c && x == Lower(Candidate(original, j));
        var k := FindIndex(recipes, Candidate(original, j)).value;
        assert Lower(recipes[k].name) == x;
      }
    }
    LowerCandidatesSize(original, c);
    LowerNamesBound(recipes);
    SubsetSize(LowerCandidates(original, c), LowerNames(recipes));
  }

  /**
   * The naming loop of `import_recipe_from_url`: tries the original name,
   * then "original (1)", "original (2)", ... until no stored recipe has it.
   * It stops after at most one attempt per stored recipe.
   */
  method UniqueName(recipes: seq<Recipe>, original: string) returns (name: string, changed: bool)
    ensures FirstFreeCandidate(recipes, original, name)
    ensures changed <==> name != original
  {
    name := original;
    var counter: nat := 1;
    while FindByName(recipes, name).Some?
      invariant 1 <= counter <= |recipes| + 1
      invariant name == Candidate(original, counter - 1)
      invariant forall j: nat :: j < counter - 1 ==> NameTaken(recipes, Candidate(original, j))
      decreases |recipes| + 1 - counter
    {
      TakenCandidatesBound(recipes, original, counter);
      name := original + " (" + NatToString(counter) + ")";
      counter := counter + 1;
    }
    ghost var n: nat := counter - 1;
    assert name == Candidate(original, n) && !NameTaken(recipes, name)
      && forall j: nat :: j < n ==> NameTaken(recipes, Candidate(original, j));
    changed := name != original;
  }

  // ---------------------------------------------------------------------
  // Re-parsing step times

  /**
   * `process_recipe_step_times`: a recipe without steps is returned as is;
   * otherwise its steps and step times are those the step-time parser
   * produces, and a falsy total time becomes their sum.
   */
  function ProcessRecipe(mt: P.Matcher, p: P.Predictor, r: Recipe): Recipe
  {
    if r.steps == [] then r
    else
      var e := P.ProcessSteps(mt, p, r.steps);
      var u := r.(steps := e.steps, stepTimes := e.times);
      if !Truthy(u.totalTime) && e.times != [] then u.(totalTime := Some(Sum(e.times))) else u
  }

  /**
   * A recipe without steps comes back unchanged. A processed recipe with
   * steps has a duration of at least a minute for each of at least as many
   * steps as before, and a truthy total time: the one it had, or else the
   * sum of its step times.
   */
  lemma ProcessRecipeProperties(mt: P.Matcher, p: P.Predictor, r: Recipe)
    ensures r.steps == [] ==> ProcessRecipe(mt, p, r) == r
    ensures r.steps != [] ==> var u := ProcessRecipe(mt, p, r);
      HasCompleteTiming(u) && |u.steps| >= |r.steps|
      && (forall k :: 0 <= k < |u.stepTimes| ==> u.stepTimes[k] >= 1)
      && u.name == r.name && u.ingredients == r.ingredients
      && u.prepTime == r.prepTime && u.cookTime == r.cookTime
      && Truthy(u.totalTime)
      && (Truthy(r.totalTime) ==> u.totalTime == r.totalTime)
      && (!Truthy(r.totalTime) ==> u.totalTime == Some(Sum(u.stepTimes)))
  {
    if r.steps != [] {
      var e := P.ProcessSteps(mt, p, r.steps);
      P.ProcessStepsBounds(mt, p, r.steps);
      SumLowerBound(e.times, 1);
    }
  }

  /** `enhance_all_recipe_times` replaces a recipe only when re-parsing changes its step count or times. */
  predicate Improves(mt: P.Matcher, p: P.Predictor, r: Recipe)
  {
    var u := ProcessRecipe(mt, p, r);
    |u.steps| != |r.steps| || u.stepTimes != r.stepTimes
  }

  function Enhanced(mt: P.Matcher, p: P.Predictor, r: Recipe): Recipe
  {
    if Improves(mt, p, r) then ProcessRecipe(mt, p, r) else r
  }

  function EnhanceAll(mt: P.Matcher, p: P.Predictor, rs: seq<Recipe>): (r: seq<Recipe>)
    ensures |r| == |rs|
    ensures forall i :: 0 <= i < |rs| ==> r[i] == Enhanced(mt, p, rs[i])
  {
    if rs == [] then []
    else
      var init := rs[..|rs| - 1];
      assert forall i :: 0 <= i < |init| ==> init[i] == rs[i];
      EnhanceAll(mt, p, init) + [Enhanced(mt, p, rs[|rs| - 1])]
  }

  /** How many recipes `enhance_all_recipe_times` replaces. */
  function ImprovedCount(mt: P.Matcher, p: P.Predictor, rs: seq<Recipe>): (n: nat)
    ensures n <= |rs|
  {
    if rs == [] then 0
    else ImprovedCount(mt, p, rs[..|rs| - 1]) + (if Improves(mt, p, rs[|rs| - 1]) then 1 else 0)
  }

  lemma EnhanceAllStep(mt: P.Matcher, p: P.Predictor, rs: seq<Recipe>, i: nat)
    requires i < |rs|
    ensures EnhanceAll(mt, p, rs[..i + 1]) + rs[i + 1..] == (EnhanceAll(mt, p, rs[..i]) + rs[i..])[i := Enhanced(mt, p, rs[i])]
  {
    assert rs[..i + 1][..i] == rs[..i];
    assert EnhanceAll(mt, p, rs[..i + 1]) == EnhanceAll(mt, p, rs[..i]) + [Enhanced(mt, p, rs[i])];
    SnocUpdate(EnhanceAll(mt, p, rs[..i]), Enhanced(mt, p, rs[i]), rs, i);
  }

  lemma ImprovedCountStep(mt: P.Matcher, p: P.Predictor, rs: seq<Recipe>, i: nat)
    requires i < |rs|
    ensures ImprovedCount(mt, p, rs[..i + 1]) == ImprovedCount(mt, p, rs[..i]) + (if Improves(mt, p, rs[i]) then 1 else 0)
  {
    assert rs[..i + 1][..i] == rs[..i];
  }

  /**
   * Re-parsing every recipe keeps the store's size and names, replaces
   * exactly the recipes re-parsing improves, and leaves every other recipe as it was.
   */
  lemma EnhanceAllProperties(mt: P.Matcher, p: P.Predictor, rs: seq<Recipe>)
    ensures var r := EnhanceAll(mt, p, rs);
      forall i :: 0 <= i < |rs| ==>
        r[i].name == rs[i].name
        && (Improves(mt, p, rs[i]) ==> r[i] == ProcessRecipe(mt, p, rs[i]) && rs[i].steps != [])
        && (!Improves(mt, p, rs[i]) ==> r[i] == rs[i])
  {
  }

  // ---------------------------------------------------------------------
  // Step-time analysis

  datatype ReviewReason = DefaultPrediction | VagueTiming

  /** A step flagged for review, numbered from 1 in the expanded list. */
  datatype ReviewItem = ReviewItem(stepNumber: nat, text: string, reason: ReviewReason)

  /** What `get_step_time_analysis` returns. */
  datatype StepTimeAnalysis = StepTimeAnalysis(
    originalSteps: nat,
    processedSteps: nat,
    totalTimeMinutes: int,
    extractedTimes: nat,
    predictedTimes: nat,
    userSetTimes: nat,
    needsReview: seq<ReviewItem>,
    expandedSteps: seq<string>,
    stepTimes: seq<int>,
    confidenceInfo: seq<P.Confidence>)

  /** The review entry for expanded step `i`, if it needs one: a predicted 5 minutes, or a predicted "until". */
  function ReviewAt(e: P.Expanded, i: nat): Option<ReviewItem>
    requires |e.steps| == |e.times| == |e.confidence| && i < |e.steps|
  {
    if e.confidence[i] == P.Predicted && e.times[i] == 5 then Some(ReviewItem(i + 1, e.steps[i], DefaultPrediction))
    else if Contains(Lower(e.steps[i]), "until") && e.confidence[i] == P.Predicted then
      Some(ReviewItem(i + 1, e.steps[i], VagueTiming))
    else None
  }

  function Reviews(e: P.Expanded): (r: seq<Option<ReviewItem>>)
    requires |e.steps| == |e.times| == |e.confidence|
    ensures |r| == |e.steps|
  {
    seq(|e.steps|, i requires 0 <= i < |e.steps| => ReviewAt(e, i))
  }

  function IsExtracted(c: P.Confidence): bool { c == P.Extracted }
  function IsPredicted(c: P.Confidence): bool { c == P.Predicted }
  function IsUserSet(c: P.Confidence): bool { c == P.UserSet }

  /** The statistics of `get_step_time_analysis` for the given parse. */
  function AnalysisOf(r: Recipe, e: P.Expanded): StepTimeAnalysis
    requires |e.steps| == |e.times| == |e.confidence|
  {
    StepTimeAnalysis(|r.steps|, |e.steps|, Sum(e.times),
      CountIf(IsExtracted, e.confidence), CountIf(IsPredicted, e.confidence), CountIf(IsUserSet, e.confidence),
      Somes(Reviews(e)), e.steps, e.times, e.confidence)
  }

  /** Every confidence tag is one of the three, so the three counts add up to the expanded step count. */
  lemma {:induction false} ConfidenceCounts(cs: seq<P.Confidence>)
    ensures CountIf(IsExtracted, cs) + CountIf(IsPredicted, cs) + CountIf(IsUserSet, cs) == |cs|
  {
    if cs != [] {
      ConfidenceCounts(cs[1..]);
    }
  }

  /** The three confidence counts add up to the number of expanded steps. */
  lemma AnalysisCounts(r: Recipe, e: P.Expanded)
    requires |e.steps| == |e.times| == |e.confidence|
    ensures var a := AnalysisOf(r, e);
      a.extractedTimes + a.predictedTimes + a.userSetTimes == a.processedSteps
  {
    ConfidenceCounts(e.confidence);
  }

  /**
   * Every step flagged for review is a predicted one, numbered by its
   * position (from 1) in the expanded list and carrying that step's text.
   */
  lemma ReviewsArePredicted(e: P.Expanded)
    requires |e.steps| == |e.times| == |e.confidence|
    ensures var items := Somes(Reviews(e));
      forall k :: 0 <= k < |items| ==>
        1 <= items[k].stepNumber <= |e.steps|
        && e.confidence[items[k].stepNumber - 1] == P.Predicted
        && e.steps[items[k].stepNumber - 1] == items[k].text
  {
    var os := Reviews(e);
    var items := Somes(os);
    forall k | 0 <= k < |items|
      ensures 1 <= items[k].stepNumber <= |e.steps|
      ensures e.confidence[items[k].stepNumber - 1] == P.Predicted
      ensures e.steps[items[k].stepNumber - 1] == items[k].text
    {
      var j :| 0 <= j < |os| && os[j] == Some(items[k]);
      assert ReviewAt(e, j) == Some(items[k]);
    }
  }

  /** The review entries of the first `n` expanded steps, one loop round at a time. */
  method CollectReviews(e: P.Expanded) returns (items: seq<ReviewItem>)
    requires |e.steps| == |e.times| == |e.confidence|
    ensures items == Somes(Reviews(e))
  {
    var os := Reviews(e);
    items := [];
    var i := 0;
    while i < |e.steps|
      invariant 0 <= i <= |e.steps|
      invariant items == Somes(os[..i])
    {
      SomesSnoc(os, i);
      if e.confidence[i] == P.Predicted && e.times[i] == 5 {
        items := items + [ReviewItem(i + 1, e.steps[i], DefaultPrediction)];
      } else if Contains(Lower(e.steps[i]), "until") && e.confidence[i] == P.Predicted {
        items := items + [ReviewItem(i + 1, e.steps[i], VagueTiming)];
      }
      i := i + 1;
    }
    assert os[..i] == os;
  }

  // ---------------------------------------------------------------------
  // Organising recipes into a timeline

  /** The errors `validate_recipe_selection` reports. */
  function SelectionErrorsOf(all: seq<Recipe>, names: seq<string>): seq<V.SelectionError>
  {
    if names == [] then [V.NothingSelected]
    else
      var index := V.RecipeIndex(all);
      V.SelectionErrors(names, index) + (if V.AcceptedRecipes(names, index) == [] then [V.NoValidRecipes] else [])
  }

  /** The selection names at least one known, valid recipe. */
  predicate SelectionPasses(all: seq<Recipe>, names: seq<string>)
  {
    names != [] && V.AcceptedRecipes(names, V.RecipeIndex(all)) != []
  }

  /** The requested target, or one hour from now when none is given. */
  function TargetOrDefault(targetTime: Option<int>, now: int): int
  {
    if targetTime.Some? then targetTime.value else now + 60 * 60
  }

  /** The chosen recipes looked up again by name (ignoring case) in the updated store. */
  function Relookup(store: seq<Recipe>, chosen: seq<Recipe>): seq<Recipe>
  {
    if chosen == [] then []
    else
      var found := FindByName(store, chosen[|chosen| - 1].name);
      Relookup(store, chosen[..|chosen| - 1]) + (if found.Some? then [found.value] else [])
  }

  /** The outcome of the `try` block of `organize_recipes`. */
  datatype Attempt<R> = Succeeded(steps: R) | Raised(error: MealTimeError) | Fault(message: string)

  /**
   * The `except` clause: a `MealTimeException` is raised again as it is;
   * any other failure is wrapped, once, in a `TimelineException`. In the
   * source such a failure is a date outside the range `datetime` can hold,
   * reached while the timeline is built; instants here are unbounded
   * integers, so `Schedule` never produces a `Fault`.
   */
  function Handle<R>(a: Attempt<R>): (r: Result<R>)
    ensures a.Succeeded? ==> r == Ok(a.steps)
    ensures a.Raised? ==> r == Err(a.error)
    ensures a.Fault? ==> (r.Err? && r.error.TimelineFailure?
      && r.error.message == "Failed to generate timeline: " + a.message)
  {
    match a
    case Succeeded(s) => Ok(s)
    case Raised(e) => Err(e)
    case Fault(m) => Err(TimelineFailure("Failed to generate timeline: " + m))
  }

  /** What `organize_recipes` returns or raises, for a store holding `all`. */
  function Organize(all: seq<Recipe>, p: P.Predictor, names: seq<string>, target: int, now: int, later: int)
    : Result<seq<T.TimelineStep>>
  {
    if !SelectionPasses(all, names) then Err(InvalidRecipe("selection", BadSelection(SelectionErrorsOf(all, names))))
    else if !V.ValidateTargetTime(target, now).valid then
      Err(ImpossibleTiming(TargetRejected(V.ValidateTargetTime(target, now).errors), None))
    else Schedule(Relookup(FillTimes(p, all), V.AcceptedRecipes(names, V.RecipeIndex(all))), target, now, later)
  }

  /** The feasibility check and the timeline for the recipes looked up again. */
  function Schedule(chosen: seq<Recipe>, target: int, now: int, later: int): Result<seq<T.TimelineStep>>
  {
    var needed := V.TimeNeeded(chosen);
    if 60 * needed > target - now then
      Err(ImpossibleTiming(NotEnoughTime(needed as real - (target - now) as real / 60.0), Some(target - 60 * needed)))
    else
      var timeline := T.TimelineOf(chosen, target);
      var errors := Filter(T.IsError, T.TimelineIssues(timeline, later));
      if errors != [] then Err(ImpossibleTiming(StartsInPast(errors), None)) else Ok(timeline)
  }

  /** The store after `organize_recipes`: step times are filled in once the selection and target pass. */
  function OrganizedStore(all: seq<Recipe>, p: P.Predictor, names: seq<string>, target: int, now: int): seq<Recipe>
  {
    if SelectionPasses(all, names) && target > now then FillTimes(p, all) else all
  }

  /** Some stored recipe has exactly this name. */
  ghost predicate NameStored(store: seq<Recipe>, name: string)
  {
    exists j :: 0 <= j < |store| && store[j].name == name
  }

  /** A selected recipe's name is stored exactly, so looking it up again always finds a recipe. */
  lemma {:induction false} RelookupFindsAll(store: seq<Recipe>, chosen: seq<Recipe>)
    requires forall i :: 0 <= i < |chosen| ==> NameStored(store, chosen[i].name)
    ensures |Relookup(store, chosen)| == |chosen|
    decreases |chosen|
  {
    if chosen != [] {
      var init := chosen[..|chosen| - 1];
      forall i | 0 <= i < |init| ensures NameStored(store, init[i].name) {
        assert init[i] == chosen[i];
      }
      RelookupFindsAll(store, init);
      var j :| 0 <= j < |store| && store[j].name == chosen[|chosen| - 1].name;
      assert SameName(store[j].name, chosen[|chosen| - 1].name);
    }
  }

  /** Filling in step times renames nothing, so every recipe the selection accepted is found again. */
  lemma OrganizeKeepsSelection(all: seq<Recipe>, p: P.Predictor, names: seq<string>)
    ensures var chosen := V.AcceptedRecipes(names, V.RecipeIndex(all));
      |Relookup(FillTimes(p, all), chosen)| == |chosen|
  {
    var chosen := V.AcceptedRecipes(names, V.RecipeIndex(all));
    var filled := FillTimes(p, all);
    V.SelectionPartition(names, all);
    forall i | 0 <= i < |chosen|
      ensures NameStored(filled, chosen[i].name)
    {
      assert chosen[i] in all;
      var j :| 0 <= j < |all| && all[j] == chosen[i];
      assert filled[j].name == chosen[i].name;
    }
    RelookupFindsAll(filled, chosen);
  }

  /**
   * Organising fails with the plan's required start time exactly when the
   * selection and target pass but the time needed exceeds the time left;
   * that start time is the target minus the time needed.
   */
  lemma OrganizeInfeasible(all: seq<Recipe>, p: P.Predictor, names: seq<string>, target: int, now: int, later: int)
    requires SelectionPasses(all, names) && target > now
    ensures var chosen := Relookup(FillTimes(p, all), V.AcceptedRecipes(names, V.RecipeIndex(all)));
      var r := Organize(all, p, names, target, now, later);
      ((r.Err? && r.error.ImpossibleTiming? && r.error.problem.NotEnoughTime?)
       <==> 60 * V.TimeNeeded(chosen) > target - now)
      && (r.Err? && r.error.ImpossibleTiming? && r.error.problem.NotEnoughTime? ==>
            r.error.requiredStartTime == Some(target - 60 * V.TimeNeeded(chosen)))
  {
  }

  /**
   * A plan is returned only if it starts strictly after the instant it was
   * checked at, every selected recipe was known and valid, and each chosen
   * recipe's steps end at the target.
   */
  lemma OrganizeSuccess(all: seq<Recipe>, p: P.Predictor, names: seq<string>, target: int, now: int, later: int)
    requires Organize(all, p, names, target, now, later).Ok?
    ensures var plan := Organize(all, p, names, target, now, later).value;
      SelectionPasses(all, names) && target > now
      && (plan == [] || T.EarliestStart(plan) > later)
      && S.SortedBy(plan, T.StartKey, S.IntLt)
  {
    var chosen := Relookup(FillTimes(p, all), V.AcceptedRecipes(names, V.RecipeIndex(all)));
    assert SelectionPasses(all, names) && V.ValidateTargetTime(target, now).valid;
    assert Organize(all, p, names, target, now, later) == Schedule(chosen, target, now, later);
    ScheduleSuccess(chosen, target, now, later);
    T.TimelineProperties(chosen, target, 0);
  }

  /**
   * Which stage a failed organise stopped at: a rejected selection (with at
   * least one reason) exactly when the selection fails, a rejected target
   * exactly when the selection passes but the target is not in the future,
   * and otherwise only timing problems; it never reports a wrapped
   * `TimelineFailure` or a missing recipe, since with unbounded instants no
   * date arithmetic can overflow.
   */
  lemma OrganizeErrors(all: seq<Recipe>, p: P.Predictor, names: seq<string>, target: int, now: int, later: int)
    ensures var r := Organize(all, p, names, target, now, later);
      ((r.Err? && r.error.InvalidRecipe?) <==> !SelectionPasses(all, names))
      && (r.Err? && r.error.InvalidRecipe? ==>
            r.error.reason.BadSelection? && r.error.reason.errors != [])
      && ((r.Err? && r.error.ImpossibleTiming? && r.error.problem.TargetRejected?)
          <==> SelectionPasses(all, names) && target <= now)
      && (r.Err? ==> r.error.InvalidRecipe? || r.error.ImpossibleTiming?)
  {
  }

  /** A schedule that succeeds is the timeline of the chosen recipes and has no error. */
  lemma ScheduleSuccess(chosen: seq<Recipe>, target: int, now: int, later: int)
    requires Schedule(chosen, target, now, later).Ok?
    ensures var plan := Schedule(chosen, target, now, later).value;
      plan == T.TimelineOf(chosen, target) && (plan == [] || T.EarliestStart(plan) > later)
  {
    var plan := T.TimelineOf(chosen, target);
    var issues := T.TimelineIssues(plan, later);
    assert !(60 * V.TimeNeeded(chosen) > target - now);
    assert Filter(T.IsError, issues) == [];
    FilterEmpty(T.IsError, issues);
    T.TimelineValidIff(plan, later);
  }

  /** The summary `get_cooking_summary` returns when nothing can be scheduled. */
  const EmptySummary: T.TimelineSummary := T.TimelineSummary(0, None, None, {}, 0, 0, 0, 0)

  function CookingSummary(all: seq<Recipe>, names: seq<string>, target: int): T.TimelineSummary
  {
    if !SelectionPasses(all, names) then EmptySummary
    else
      var chosen := V.AcceptedRecipes(names, V.RecipeIndex(all));
      T.TimelineSummaryOf(T.TimelineOf(chosen, target), target)
  }

  /** The result of a successful `import_recipe_from_url`. */
  datatype Imported = Imported(recipe: Recipe, validationIssues: seq<V.RecipeIssue>, nameChanged: bool)

  // ---------------------------------------------------------------------
  // The service

  class RecipeService {
    var recipes: seq<Recipe>
    const matcher: P.Matcher
    const predictor: P.Predictor

    /** A service over an already-loaded list of recipes, with the parser's matcher and the predictor. */
    constructor (stored: seq<Recipe>, mt: P.Matcher, p: P.Predictor)
      ensures recipes == stored && matcher == mt && predictor == p
    {
      recipes := stored;
      matcher := mt;
      predictor := p;
    }

    /** The loop shared by lookup, update and delete: the first position whose name matches, ignoring case. */
    method IndexOf(name: string) returns (i: Option<nat>)
      ensures i == FindIndex(recipes, name)
    {
      var k := 0;
      while k < |recipes|
        invariant 0 <= k <= |recipes|
        invariant forall j :: 0 <= j < k ==> !SameName(recipes[j].name, name)
      {
        if Lower(recipes[k].name) == Lower(name) {
          return Some(k);
        }
        k := k + 1;
      }
      return None;
    }

    /** `get_recipe_by_name` */
    method GetRecipeByName(name: string) returns (r: Option<Recipe>)
      ensures r == FindByName(recipes, name)
    {
      var i := IndexOf(name);
      r := if i.Some? then Some(recipes[i.value]) else None;
    }

    /** `list_recipes` */
    method ListRecipes() returns (rs: seq<Recipe>)
      ensures rs == recipes
    {
      rs := recipes;
    }

    /**
     * `get_recipe_validation_issues`: the issues of the first recipe with
     * that name (ignoring case), or `None` for the "Recipe not found" answer.
     */
    method GetRecipeValidationIssues(name: string) returns (issues: Option<seq<V.RecipeIssue>>)
      ensures issues.None? <==> FindByName(recipes, name).None?
      ensures issues.Some? ==> issues.value == V.ValidateRecipe(FindByName(recipes, name).value)
      ensures issues == Some([]) <==> FindByName(recipes, name).Some? && V.RecipeIsValid(FindByName(recipes, name).value)
    {
      var r := GetRecipeByName(name);
      if r.None? {
        return None;
      }
      V.ValidateRecipeEmptyIff(r.value);
      issues := Some(V.ValidateRecipe(r.value));
    }

    /**
     * The in-memory part of `preview_recipe_from_url`, given the recipe the
     * scraper produced: its validation issues, with nothing stored.
     */
    method PreviewRecipe(recipe: Recipe) returns (issues: seq<V.RecipeIssue>)
      ensures issues == V.ValidateRecipe(recipe)
      ensures issues == [] <==> V.RecipeIsValid(recipe)
    {
      V.ValidateRecipeEmptyIff(recipe);
      issues := V.ValidateRecipe(recipe);
    }

    /** `add_recipe`: refuses an invalid recipe or a name already stored (ignoring case), else appends. */
    method AddRecipe(recipe: Recipe) returns (o: Outcome)
      modifies this
      ensures var issues := V.ValidateRecipe(recipe);
        if issues != [] then o == Failed(InvalidRecipe(recipe.name, Issues(issues))) && recipes == old(recipes)
        else if NameTaken(old(recipes), recipe.name) then
          o == Failed(InvalidRecipe(recipe.name, DuplicateName)) && recipes == old(recipes)
        else o == Done && recipes == old(recipes) + [recipe]
      ensures DistinctNames(old(recipes)) ==> DistinctNames(recipes)
    {
      var issues := V.ValidateRecipe(recipe);
      if issues != [] {
        return Failed(InvalidRecipe(recipe.name, Issues(issues)));
      }
      var existing := GetRecipeByName(recipe.name);
      if existing.Some? {
        return Failed(InvalidRecipe(recipe.name, DuplicateName));
      }
      recipes := recipes + [recipe];
      o := Done;
    }

    /** `update_recipe`: replaces the first recipe with the same name (ignoring case), in place. */
    method UpdateRecipe(recipe: Recipe) returns (o: Outcome)
      modifies this
      ensures var issues := V.ValidateRecipe(recipe);
        if issues != [] then o == Failed(InvalidRecipe(recipe.name, Issues(issues))) && recipes == old(recipes)
        else match FindIndex(old(recipes), recipe.name)
          case None => o == Failed(RecipeNotFound(recipe.name)) && recipes == old(recipes)
          case Some(i) => o == Done && recipes == old(recipes)[i := recipe]
      ensures |recipes| == |old(recipes)|
      ensures DistinctNames(old(recipes)) ==> DistinctNames(recipes)
    {
      var issues := V.ValidateRecipe(recipe);
      if issues != [] {
        return Failed(InvalidRecipe(recipe.name, Issues(issues)));
      }
      var i := IndexOf(recipe.name);
      if i.None? {
        return Failed(RecipeNotFound(recipe.name));
      }
      ghost var before := recipes;
      recipes := recipes[i.value := recipe];
      o := Done;
      assert forall j :: 0 <= j < |recipes| ==> Lower(recipes[j].name) == Lower(before[j].name);
    }

    /** `delete_recipe`: removes the first recipe with the name (ignoring case). */
    method DeleteRecipe(name: string) returns (o: Outcome)
      modifies this
      ensures match FindIndex(old(recipes), name)
        case None => o == Failed(RecipeNotFound(name)) && recipes == old(recipes)
        case Some(i) =>
          o == Done && recipes == old(recipes)[..i] + old(recipes)[i + 1..] && |recipes| == |old(recipes)| - 1
      ensures DistinctNames(old(recipes)) ==> DistinctNames(recipes)
    {
      var i := IndexOf(name);
      if i.None? {
        return Failed(RecipeNotFound(name));
      }
      ghost var before := recipes;
      recipes := recipes[..i.value] + recipes[i.value + 1..];
      o := Done;
      assert forall j :: 0 <= j < |recipes| ==> recipes[j] == if j < i.value then before[j] else before[j + 1];
    }

    /**
     * `generate_missing_step_times`: every recipe without exactly one
     * duration per step gets one predicted duration per step; the names of
     * those recipes are reported, in store order.
     */
    method GenerateMissingStepTimes() returns (updatedCount: nat, updatedRecipes: seq<string>)
      modifies this
      ensures recipes == FillTimes(predictor, old(recipes))
      ensures updatedRecipes == LackingNames(old(recipes))
      ensures updatedCount == |updatedRecipes| == CountIf(LacksTiming, old(recipes))
    {
      ghost var before := recipes;
      var changed: seq<string> := [];
      var i := 0;
      while i < |recipes|
        invariant 0 <= i <= |before| && |recipes| == |before|
        invariant recipes == FillTimes(predictor, before[..i]) + before[i..]
        invariant changed == LackingNames(before[..i])
      {
        FillTimesStep(predictor, before, i);
        LackingNamesStep(before, i);
        var recipe := recipes[i];
        if !(recipe.stepTimes != [] && |recipe.stepTimes| == |recipe.steps|) {
          recipes := recipes[i := recipe.(stepTimes := Map((s: string) => P.Predict(predictor, s), recipe.steps))];
          changed := changed + [recipe.name];
        }
        i := i + 1;
      }
      assert before[..i] == before;
      LackingNamesCount(before);
      updatedCount := |changed|;
      updatedRecipes := changed;
    }

    /**
     * The in-memory part of `import_recipe_from_url`, given the recipe the
     * scraper produced: it is validated, renamed to the first free candidate
     * name, and appended even if validation reported issues.
     */
    method ImportRecipe(recipe: Recipe) returns (r: Imported)
      modifies this
      ensures r.validationIssues == V.ValidateRecipe(recipe)
      ensures r.recipe == recipe.(name := r.recipe.name)
      ensures FirstFreeCandidate(old(recipes), recipe.name, r.recipe.name)
      ensures r.nameChanged <==> r.recipe.name != recipe.name
      ensures recipes == old(recipes) + [r.recipe]
      ensures DistinctNames(old(recipes)) ==> DistinctNames(recipes)
    {
      var issues := V.ValidateRecipe(recipe);
      var name, changed := UniqueName(recipes, recipe.name);
      var renamed := recipe.(name := name);
      ghost var before := recipes;
      assert !NameTaken(before, name);
      recipes := recipes + [renamed];
      r := Imported(renamed, issues, changed);
    }

    /** `process_recipe_step_times`, with this service's matcher and predictor. */
    method ProcessRecipeStepTimes(recipe: Recipe) returns (u: Recipe)
      ensures u == ProcessRecipe(matcher, predictor, recipe)
    {
      if recipe.steps == [] {
        return recipe;
      }
      var e := P.ProcessRecipeSteps(matcher, predictor, recipe.steps);
      u := recipe.(steps := e.steps, stepTimes := e.times);
      if !(u.totalTime.Some? && u.totalTime.value != 0) && e.times != [] {
        u := u.(totalTime := Some(Sum(e.times)));
      }
    }

    /** `enhance_all_recipe_times`: re-parses every recipe and keeps the result where it changed something. */
    method EnhanceAllRecipeTimes() returns (enhancedCount: nat)
      modifies this
      ensures recipes == EnhanceAll(matcher, predictor, old(recipes))
      ensures enhancedCount == ImprovedCount(matcher, predictor, old(recipes))
    {
      ghost var before := recipes;
      enhancedCount := 0;
      for i := 0 to |recipes|
        invariant recipes == EnhanceAll(matcher, predictor, before[..i]) + before[i..]
        invariant enhancedCount == ImprovedCount(matcher, predictor, before[..i])
      {
        EnhanceAllStep(matcher, predictor, before, i);
        ImprovedCountStep(matcher, predictor, before, i);
        var recipe := recipes[i];
        var originalStepCount := |recipe.steps|;
        var enhanced := ProcessRecipeStepTimes(recipe);
        if |enhanced.steps| != originalStepCount || enhanced.stepTimes != recipe.stepTimes {
          recipes := recipes[i := enhanced];
          enhancedCount := enhancedCount + 1;
        }
      }
      assert before[..|before|] == before;
    }

    /** `add_recipe_with_time_processing` */
    method AddRecipeWithTimeProcessing(recipe: Recipe) returns (r: Result<Recipe>)
      modifies this
      ensures var u := ProcessRecipe(matcher, predictor, recipe);
        var issues := V.ValidateRecipe(u);
        if issues != [] then r == Err(InvalidRecipe(u.name, Issues(issues))) && recipes == old(recipes)
        else if NameTaken(old(recipes), u.name) then
          r == Err(InvalidRecipe(u.name, DuplicateName)) && recipes == old(recipes)
        else r == Ok(u) && recipes == old(recipes) + [u]
    {
      var processed := ProcessRecipeStepTimes(recipe);
      var o := AddRecipe(processed);
      r := if o.Failed? then Err(o.error) else Ok(processed);
    }

    /** `update_recipe_with_time_processing` */
    method UpdateRecipeWithTimeProcessing(recipe: Recipe) returns (r: Result<Recipe>)
      modifies this
      ensures var u := ProcessRecipe(matcher, predictor, recipe);
        var issues := V.ValidateRecipe(u);
        if issues != [] then r == Err(InvalidRecipe(u.name, Issues(issues))) && recipes == old(recipes)
        else match FindIndex(old(recipes), u.name)
          case None => r == Err(RecipeNotFound(u.name)) && recipes == old(recipes)
          case Some(i) => r == Ok(u) && recipes == old(recipes)[i := u]
    {
      var processed := ProcessRecipeStepTimes(recipe);
      var o := UpdateRecipe(processed);
      r := if o.Failed? then Err(o.error) else Ok(processed);
    }

    /** `get_step_time_analysis` */
    method GetStepTimeAnalysis(recipe: Recipe) returns (a: StepTimeAnalysis)
      ensures var e := P.ProcessSteps(matcher, predictor, recipe.steps);
        |e.steps| == |e.times| == |e.confidence| && a == AnalysisOf(recipe, e)
    {
      var e := P.ProcessRecipeSteps(matcher, predictor, recipe.steps);
      P.ProcessStepsBounds(matcher, predictor, recipe.steps);
      var review := CollectReviews(e);
      a := StepTimeAnalysis(|recipe.steps|, |e.steps|, Sum(e.times),
        CountIf(IsExtracted, e.confidence), CountIf(IsPredicted, e.confidence), CountIf(IsUserSet, e.confidence),
        review, e.steps, e.times, e.confidence);
    }

    /** `get_cooking_summary` */
    method GetCookingSummary(names: seq<string>, targetTime: Option<int>, now: int) returns (s: T.TimelineSummary)
      ensures s == CookingSummary(recipes, names, TargetOrDefault(targetTime, now))
    {
      var target := if targetTime.Some? then targetTime.value else now + 60 * 60;
      var selection := V.ValidateRecipeSelection(names, recipes);
      if !selection.valid {
        return EmptySummary;
      }
      var steps := T.GenerateTimeline(selection.validRecipes, target);
      s := T.TimelineSummaryOf(steps, target);
    }

    /**
     * `organize_recipes`: validates the selection and the target, fills in
     * missing step times, checks that the chosen recipes fit in the time
     * left, builds the timeline and checks it again at the instant `later`.
     */
    method OrganizeRecipes(names: seq<string>, targetTime: Option<int>, now: int, later: int)
      returns (r: Result<seq<T.TimelineStep>>)
      modifies this
      ensures var target := TargetOrDefault(targetTime, now);
        r == Organize(old(recipes), predictor, names, target, now, later)
        && recipes == OrganizedStore(old(recipes), predictor, names, target, now)
    {
      var target := if targetTime.Some? then targetTime.value else now + 60 * 60;
      ghost var all := recipes;
      var selection := V.ValidateRecipeSelection(names, recipes);
      if !selection.valid {
        return Err(InvalidRecipe("selection", BadSelection(selection.errors)));
      }
      var timeCheck := V.ValidateTargetTime(target, now);
      if !timeCheck.valid {
        return Err(ImpossibleTiming(TargetRejected(timeCheck.errors), None));
      }
      var chosen := selection.validRecipes;
      var _, _ := GenerateMissingStepTimes();
      var updated := RelookupAll(chosen);
      r := ScheduleRecipes(updated, target, now, later);
    }

    /** "Reload recipes to get updated step times": each chosen recipe looked up again by name. */
    method RelookupAll(chosen: seq<Recipe>) returns (updated: seq<Recipe>)
      ensures updated == Relookup(recipes, chosen)
    {
      updated := [];
      var i := 0;
      while i < |chosen|
        invariant 0 <= i <= |chosen|
        invariant updated == Relookup(recipes, chosen[..i])
      {
        assert chosen[..i + 1][..i] == chosen[..i];
        var found := GetRecipeByName(chosen[i].name);
        if found.Some? {
          updated := updated + [found.value];
        }
        i := i + 1;
      }
      assert chosen[..i] == chosen;
    }

  }

  /** The end of `organize_recipes`: the feasibility check, then the `try` block and its `except` clause. */
  method ScheduleRecipes(chosen: seq<Recipe>, target: int, now: int, later: int) returns (r: Result<seq<T.TimelineStep>>)
    ensures r == Schedule(chosen, target, now, later)
  {
    var feasibility := V.ValidateTimelineFeasibility(chosen, target, now);
    if !feasibility.feasible {
      var requiredStart := target - 60 * feasibility.timeNeeded;
      return Err(ImpossibleTiming(NotEnoughTime(feasibility.shortage.value), Some(requiredStart)));
    }
    var attempt := BuildTimeline(chosen, target, later);
    r := Handle(attempt);
  }

  /** The `try` block of `organize_recipes`: build the timeline and refuse one that starts too early. */
  method BuildTimeline(chosen: seq<Recipe>, target: int, later: int) returns (a: Attempt<seq<T.TimelineStep>>)
    ensures var timeline := T.TimelineOf(chosen, target);
      var errors := Filter(T.IsError, T.TimelineIssues(timeline, later));
      a == if errors != [] then Raised(ImpossibleTiming(StartsInPast(errors), None)) else Succeeded(timeline)
  {
    var steps := T.GenerateTimeline(chosen, target);
    var validation := T.ValidateTimeline(steps, later);
    FilterEmpty(T.IsError, validation.issues);
    if !validation.valid {
      var errors := Filter(T.IsError, validation.issues);
      if errors != [] {
        return Raised(ImpossibleTiming(StartsInPast(errors), None));
      }
    }
    a := Succeeded(steps);
  }
}
