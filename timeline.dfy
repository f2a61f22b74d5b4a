/**
 * The timeline service: every recipe is scheduled backwards from the target
 * time so that its last step ends exactly then; the steps of all recipes are
 * merged, sorted by start time, numbered and given the gap to the previous
 * step. Instants are whole seconds, durations whole minutes.
 */
module Timeline {
  import opened Basics
  import opened Text
  import opened Config
  import opened Recipes
  import opened Sorting

  /** One scheduled step (the `TimelineStep` record). */
  datatype TimelineStep = TimelineStep(
    text: string,
    duration: int,
    startTime: int,
    endTime: int,
    recipeName: string,
    stepNumber: int,
    recipeColor: string,
    isPrep: bool,
    isCooking: bool,
    canMultitask: bool,
    order: int,
    timeGap: real)

  /** A step mentions one of the preparation keywords, ignoring case. */
  predicate IsPrepStep(text: string)
  {
    AnyKeyword(Lower(text), PrepKeywords)
  }

  /** A step mentions one of the cooking keywords, ignoring case. */
  predicate IsCookingStep(text: string)
  {
    AnyKeyword(Lower(text), CookingKeywords)
  }

  /** A step mentions one of the keywords of unattended work, ignoring case. */
  predicate CanMultitask(text: string)
  {
    AnyKeyword(Lower(text), MultitaskKeywords)
  }

  function StartKey(s: TimelineStep): int
  {
    s.startTime
  }

  /** The recipe has steps, durations, and as many of one as of the other. */
  predicate Schedulable(r: Recipe)
  {
    r.steps != [] && r.stepTimes != [] && |r.steps| == |r.stepTimes|
  }

  /**
   * Step `k` of recipe `r` scheduled back from `target`: it ends when the
   * steps after it begin, lasting its own duration.
   */
  function ScheduledStep(r: Recipe, target: int, colorIndex: nat, k: nat): TimelineStep
    requires Schedulable(r) && k < |r.steps|
  {
    var endTime := target - 60 * Sum(r.stepTimes[k + 1..]);
    TimelineStep(r.steps[k], r.stepTimes[k], endTime - 60 * r.stepTimes[k], endTime, r.name, k + 1,
      RecipeColors[colorIndex % |RecipeColors|],
      IsPrepStep(r.steps[k]), IsCookingStep(r.steps[k]), CanMultitask(r.steps[k]), 0, 0.0)
  }

  /** The steps `_process_single_recipe` produces for one recipe, in recipe order. */
  function RecipeTimeline(r: Recipe, target: int, colorIndex: nat): seq<TimelineStep>
  {
    if !Schedulable(r) then []
    else seq(|r.steps|, k requires 0 <= k < |r.steps| => ScheduledStep(r, target, colorIndex, k))
  }

  /**
   * Walks the steps from last to first, each one ending where the one after
   * it starts, then restores recipe order.
   */
  method ProcessSingleRecipe(r: Recipe, target: int, colorIndex: nat) returns (steps: seq<TimelineStep>)
    ensures steps == RecipeTimeline(r, target, colorIndex)
  {
    if r.steps == [] || r.stepTimes == [] {
      return [];
    }
    if |r.steps| != |r.stepTimes| {
      return [];
    }
    var n := |r.steps|;
    var acc: seq<TimelineStep> := [];
    var currentEnd := target;
    var color := RecipeColors[colorIndex % |RecipeColors|];
    var i := 0;
    while i < n
      invariant 0 <= i <= n
      invariant |acc| == i
      invariant currentEnd == target - 60 * Sum(r.stepTimes[n - i..])
      invariant forall j :: 0 <= j < i ==> acc[j] == ScheduledStep(r, target, colorIndex, n - 1 - j)
    {
      var k := n - 1 - i;
      var text, duration := r.steps[k], r.stepTimes[k];
      var startTime := currentEnd - 60 * duration;
      var step := TimelineStep(text, duration, startTime, currentEnd, r.name, n - i, color,
        IsPrepStep(text), IsCookingStep(text), CanMultitask(text), 0, 0.0);
      assert r.stepTimes[k..][1..] == r.stepTimes[k + 1..];
      acc := acc + [step];
      currentEnd := startTime;
      i := i + 1;
    }
    steps := Reverse(acc);
  }

  /** With durations that are not negative, a recipe's steps start in order. */
  lemma {:induction false} RecipeTimelineOrdered(r: Recipe, target: int, colorIndex: nat)
    requires forall i :: 0 <= i < |r.stepTimes| ==> r.stepTimes[i] >= 0
    ensures SortedBy(RecipeTimeline(r, target, colorIndex), StartKey, IntLt)
  {
    if Schedulable(r) {
      var t := RecipeTimeline(r, target, colorIndex);
      forall i | 0 < i < |t| ensures !IntLt(StartKey(t[i]), StartKey(t[i - 1])) {
        assert r.stepTimes[i..][1..] == r.stepTimes[i + 1..];
        assert Sum(r.stepTimes[i..]) == r.stepTimes[i] + Sum(r.stepTimes[i + 1..]);
        assert t[i - 1].endTime == t[i].startTime + 60 * r.stepTimes[i] - 60 * r.stepTimes[i];
      }
    }
  }

  /** Consecutive steps of a recipe meet: each ends when the next begins. */
  lemma RecipeTimelineBackToBack(r: Recipe, target: int, colorIndex: nat)
    requires Schedulable(r)
    ensures var t := RecipeTimeline(r, target, colorIndex);
      forall i :: 0 < i < |t| ==> t[i - 1].endTime == t[i].startTime
  {
    var t := RecipeTimeline(r, target, colorIndex);
    forall i | 0 < i < |t| ensures t[i - 1].endTime == t[i].startTime {
      assert r.stepTimes[i..][1..] == r.stepTimes[i + 1..];
    }
  }

  /** The last step ends at the target and the first starts the recipe's whole duration before it. */
  lemma RecipeTimelineEnds(r: Recipe, target: int, colorIndex: nat)
    requires Schedulable(r)
    ensures var t := RecipeTimeline(r, target, colorIndex);
      |t| == |r.steps| && t[|t| - 1].endTime == target && t[0].startTime == target - 60 * Sum(r.stepTimes)
  {
    var t := RecipeTimeline(r, target, colorIndex);
    assert r.stepTimes[|t|..] == [];
    assert r.stepTimes[0..][1..] == r.stepTimes[1..];
    assert r.stepTimes[0..] == r.stepTimes;
  }

  /**
   * Each step is the recipe's step of the same position, numbered from 1,
   * lasting its own duration, in the recipe's colour, and classified by its
   * own text.
   */
  lemma RecipeTimelineSteps(r: Recipe, target: int, colorIndex: nat)
    requires Schedulable(r)
    ensures var t := RecipeTimeline(r, target, colorIndex);
      forall i :: 0 <= i < |t| ==>
        t[i].endTime - t[i].startTime == 60 * t[i].duration
        && t[i].text == r.steps[i] && t[i].duration == r.stepTimes[i]
        && t[i].stepNumber == i + 1 && t[i].recipeName == r.name
        && t[i].recipeColor == RecipeColors[colorIndex % 8]
        && t[i].isPrep == IsPrepStep(r.steps[i]) && t[i].isCooking == IsCookingStep(r.steps[i])
        && t[i].canMultitask == CanMultitask(r.steps[i])
  {
  }

  /**
   * The steps of a recipe are back to back: each ends when the next begins,
   * the last ends at the target and the first starts the whole recipe's
   * duration before it.
   */
  lemma RecipeTimelineChained(r: Recipe, target: int, colorIndex: nat)
    requires Schedulable(r)
    ensures var t := RecipeTimeline(r, target, colorIndex);
      |t| == |r.steps|
      && t[|t| - 1].endTime == target
      && t[0].startTime == target - 60 * Sum(r.stepTimes)
      && (forall i :: 0 < i < |t| ==> t[i - 1].endTime == t[i].startTime)
      && (forall i :: 0 <= i < |t| ==>
            t[i].endTime - t[i].startTime == 60 * t[i].duration
            && t[i].text == r.steps[i] && t[i].duration == r.stepTimes[i]
            && t[i].stepNumber == i + 1 && t[i].recipeName == r.name)
  {
    RecipeTimelineEnds(r, target, colorIndex);
    RecipeTimelineBackToBack(r, target, colorIndex);
    RecipeTimelineSteps(r, target, colorIndex);
  }

  /** The concatenated steps of the first `n` recipes, each coloured by its position. */
  function StepsOf(recipes: seq<Recipe>, target: int, n: nat): seq<TimelineStep>
    requires n <= |recipes|
  {
    if n == 0 then [] else StepsOf(recipes, target, n - 1) + RecipeTimeline(recipes[n - 1], target, n - 1)
  }

  /** Gap in minutes between the end of one step and the start of the next. */
  function Gap(prev: TimelineStep, next: TimelineStep): real
  {
    (next.startTime - prev.endTime) as real / 60.0
  }

  /** Step `i` of `s` with its position (from 1) and, after the first, the gap since the previous step. */
  function Annotated(s: seq<TimelineStep>, i: nat): TimelineStep
    requires i < |s|
  {
    s[i].(order := i + 1, timeGap := if i == 0 then s[i].timeGap else Gap(s[i - 1], s[i]))
  }

  /** `_add_timeline_metadata` on a whole list. */
  function WithMetadata(s: seq<TimelineStep>): (r: seq<TimelineStep>)
    ensures |r| == |s|
  {
    seq(|s|, i requires 0 <= i < |s| => Annotated(s, i))
  }

  /** The timeline `generate_timeline` returns. */
  function TimelineOf(recipes: seq<Recipe>, target: int): seq<TimelineStep>
  {
    if recipes == [] then [] else WithMetadata(SortBy(StepsOf(recipes, target, |recipes|), StartKey, IntLt))
  }

  /** Numbers the steps and records each one's gap, in place. */
  method AddTimelineMetadata(a: array<TimelineStep>)
    modifies a
    ensures a[..] == WithMetadata(old(a[..]))
  {
    ghost var s := a[..];
    for i := 0 to a.Length
      invariant forall j :: 0 <= j < i ==> a[j] == Annotated(s, j)
      invariant forall j :: i <= j < a.Length ==> a[j] == s[j]
    {
      var gap := a[i].timeGap;
      if i > 0 {
        var prev := a[i - 1];
        assert prev.endTime == s[i - 1].endTime;
        gap := Gap(prev, a[i]);
      }
      a[i] := a[i].(order := i + 1, timeGap := gap);
    }
    assert a[..] == WithMetadata(s);
  }

  /** The loop of `generate_timeline`: every recipe's steps, coloured by the recipe's position. */
  method CollectSteps(recipes: seq<Recipe>, target: int) returns (all: seq<TimelineStep>)
    ensures all == StepsOf(recipes, target, |recipes|)
  {
    all := [];
    for idx := 0 to |recipes|
      invariant all == StepsOf(recipes, target, idx)
    {
      var recipeSteps := ProcessSingleRecipe(recipes[idx], target, idx);
      all := all + recipeSteps;
    }
  }

  /** `generate_timeline`: collect, sort by start time, then number and annotate in place. */
  method GenerateTimeline(recipes: seq<Recipe>, target: int) returns (steps: seq<TimelineStep>)
    ensures steps == TimelineOf(recipes, target)
  {
    if recipes == [] {
      return [];
    }
    var all := CollectSteps(recipes, target);
    var sorted := SortBy(all, StartKey, IntLt);
    var a := new TimelineStep[|sorted|](i requires 0 <= i < |sorted| => sorted[i]);
    assert a[..] == sorted;
    AddTimelineMetadata(a);
    steps := a[..];
  }

  /** A step without the metadata `_add_timeline_metadata` fills in. */
  function Bare(s: seq<TimelineStep>): (r: seq<TimelineStep>)
    ensures |r| == |s|
  {
    seq(|s|, i requires 0 <= i < |s| => s[i].(order := 0, timeGap := 0.0))
  }

  /** A freshly scheduled step carries no numbering and no gap yet. */
  lemma RecipeTimelineBare(r: Recipe, target: int, colorIndex: nat)
    ensures Bare(RecipeTimeline(r, target, colorIndex)) == RecipeTimeline(r, target, colorIndex)
  {
  }

  lemma BareAppend(a: seq<TimelineStep>, b: seq<TimelineStep>)
    requires Bare(a) == a && Bare(b) == b
    ensures Bare(a + b) == a + b
  {
    forall i | 0 <= i < |a + b| ensures Bare(a + b)[i] == (a + b)[i] {
      if i < |a| {
        assert Bare(a)[i] == a[i];
      } else {
        assert Bare(b)[i - |a|] == b[i - |a|];
      }
    }
  }

  lemma {:induction false} StepsAreBare(recipes: seq<Recipe>, target: int, n: nat)
    requires n <= |recipes|
    ensures Bare(StepsOf(recipes, target, n)) == StepsOf(recipes, target, n)
  {
    if n > 0 {
      StepsAreBare(recipes, target, n - 1);
      RecipeTimelineBare(recipes[n - 1], target, n - 1);
      BareAppend(StepsOf(recipes, target, n - 1), RecipeTimeline(recipes[n - 1], target, n - 1));
    }
  }

  lemma BareSortBy(s: seq<TimelineStep>)
    requires Bare(s) == s
    ensures Bare(SortBy(s, StartKey, IntLt)) == SortBy(s, StartKey, IntLt)
  {
    var t := SortBy(s, StartKey, IntLt);
    SortByPermutes(s, StartKey, IntLt);
    forall i | 0 <= i < |t| ensures t[i].order == 0 && t[i].timeGap == 0.0 {
      assert t[i] in multiset(s);
      var j :| 0 <= j < |s| && s[j] == t[i];
      assert Bare(s)[j] == s[j];
    }
  }

  /**
   * Apart from the numbering and the gaps, the timeline is the stable sort by
   * start time of all recipes' steps, concatenated in recipe order.
   */
  lemma TimelineIsSortedSteps(recipes: seq<Recipe>, target: int)
    ensures Bare(TimelineOf(recipes, target)) == SortBy(StepsOf(recipes, target, |recipes|), StartKey, IntLt)
  {
    var s := StepsOf(recipes, target, |recipes|);
    StepsAreBare(recipes, target, |recipes|);
    BareSortBy(s);
    if recipes == [] {
      assert s == [];
    }
  }

  /**
   * The timeline holds exactly the steps of the recipes (up to numbering and
   * gaps), ordered by start time, with ties kept in recipe order.
   */
  lemma TimelineProperties(recipes: seq<Recipe>, target: int, t: int)
    ensures var tl := TimelineOf(recipes, target);
      var all := StepsOf(recipes, target, |recipes|);
      multiset(Bare(tl)) == multiset(all)
      && SortedBy(tl, StartKey, IntLt)
      && KeyFilter(Bare(tl), StartKey, t) == KeyFilter(all, StartKey, t)
  {
    var all := StepsOf(recipes, target, |recipes|);
    var tl := TimelineOf(recipes, target);
    TimelineIsSortedSteps(recipes, target);
    SortByPermutes(all, StartKey, IntLt);
    IntOrdersAsymmetric();
    SortBySorted(all, StartKey, IntLt);
    SortByStable(all, StartKey, IntLt, t);
    var sorted := SortBy(all, StartKey, IntLt);
    forall i | 0 < i < |tl| ensures !IntLt(StartKey(tl[i]), StartKey(tl[i - 1])) {
      assert tl[i].startTime == Bare(tl)[i].startTime == sorted[i].startTime;
      assert tl[i - 1].startTime == Bare(tl)[i - 1].startTime == sorted[i - 1].startTime;
    }
  }

  /** Steps are numbered 1, 2, ... and each gap is the idle time since the previous step ended. */
  lemma TimelineMetadata(recipes: seq<Recipe>, target: int)
    ensures var tl := TimelineOf(recipes, target);
      (forall i :: 0 <= i < |tl| ==> tl[i].order == i + 1)
      && (forall i :: 0 < i < |tl| ==> tl[i].timeGap == Gap(tl[i - 1], tl[i]))
      && (tl != [] ==> tl[0].timeGap == 0.0)
  {
    var all := StepsOf(recipes, target, |recipes|);
    StepsAreBare(recipes, target, |recipes|);
    BareSortBy(all);
    WithMetadataNumbers(SortBy(all, StartKey, IntLt));
  }

  /** Numbering a list of bare steps: positions from 1, gaps from the second step on. */
  lemma WithMetadataNumbers(s: seq<TimelineStep>)
    requires Bare(s) == s
    ensures var r := WithMetadata(s);
      (forall i :: 0 <= i < |r| ==> r[i].order == i + 1)
      && (forall i :: 0 < i < |r| ==> r[i].timeGap == Gap(r[i - 1], r[i]))
      && (r != [] ==> r[0].timeGap == 0.0)
  {
    if s != [] {
      assert Bare(s)[0] == s[0];
    }
  }

  /** What `get_timeline_summary` reports. */
  datatype TimelineSummary = TimelineSummary(
    totalTime: int,
    startTime: Option<int>,
    endTime: Option<int>,
    recipes: set<string>,
    totalSteps: nat,
    prepSteps: nat,
    cookingSteps: nat,
    multitaskOpportunities: nat)

  /** The earliest start time among the steps (the summary's `min` over start times). */
  function EarliestStart(steps: seq<TimelineStep>): (m: int)
    requires steps != []
    ensures forall i :: 0 <= i < |steps| ==> m <= steps[i].startTime
    ensures exists i :: 0 <= i < |steps| && m == steps[i].startTime
  {
    if |steps| == 1 then steps[0].startTime
    else
      var rest := EarliestStart(steps[1..]);
      assert forall i :: 1 <= i < |steps| ==> steps[i] == steps[1..][i - 1];
      if steps[0].startTime <= rest then steps[0].startTime else rest
  }

  /** In a timeline sorted by start time the earliest start is the first step's. */
  lemma {:induction false} SortedEarliestIsFirst(steps: seq<TimelineStep>)
    requires steps != [] && SortedBy(steps, StartKey, IntLt)
    ensures EarliestStart(steps) == steps[0].startTime
  {
    forall i | 0 <= i < |steps| ensures steps[0].startTime <= steps[i].startTime {
      SortedFromFirst(steps, i);
    }
  }

  lemma {:induction false} SortedFromFirst(steps: seq<TimelineStep>, i: nat)
    requires i < |steps| && SortedBy(steps, StartKey, IntLt)
    ensures steps[0].startTime <= steps[i].startTime
  {
    if i > 0 {
      SortedFromFirst(steps, i - 1);
      assert !IntLt(StartKey(steps[i]), StartKey(steps[i - 1]));
    }
  }

  /** A preparation step. */
  predicate IsPrepEntry(s: TimelineStep) { s.isPrep }

  /** A cooking step. */
  predicate IsCookingEntry(s: TimelineStep) { s.isCooking }

  /** A step that can run while attention goes elsewhere. */
  predicate IsMultitaskEntry(s: TimelineStep) { s.canMultitask }

  function TimelineSummaryOf(steps: seq<TimelineStep>, target: int): (r: TimelineSummary)
    ensures steps == [] ==> r == TimelineSummary(0, None, None, {}, 0, 0, 0, 0)
    ensures steps != [] ==>
      r.startTime == Some(EarliestStart(steps)) && r.endTime == Some(target)
      && r.totalTime == TruncDiv(target - EarliestStart(steps), 60)
      && (forall name :: name in r.recipes <==> exists i :: 0 <= i < |steps| && steps[i].recipeName == name)
      && r.totalSteps == |steps|
      && r.prepSteps == |Filter(IsPrepEntry, steps)|
      && r.cookingSteps == |Filter(IsCookingEntry, steps)|
      && r.multitaskOpportunities == |Filter(IsMultitaskEntry, steps)|
  {
    if steps == [] then TimelineSummary(0, None, None, {}, 0, 0, 0, 0)
    else
      var start := EarliestStart(steps);
      CountIfIsFilterLength(IsPrepEntry, steps);
      CountIfIsFilterLength(IsCookingEntry, steps);
      CountIfIsFilterLength(IsMultitaskEntry, steps);
      TimelineSummary(TruncDiv(target - start, 60), Some(start), Some(target),
        set i | 0 <= i < |steps| :: steps[i].recipeName,
        |steps|,
        CountIf(IsPrepEntry, steps),
        CountIf(IsCookingEntry, steps),
        CountIf(IsMultitaskEntry, steps))
  }

  /** The summary of a generated timeline starts with the timeline's first step. */
  lemma SummaryOfTimeline(recipes: seq<Recipe>, target: int)
    requires TimelineOf(recipes, target) != []
    ensures TimelineSummaryOf(TimelineOf(recipes, target), target).startTime
      == Some(TimelineOf(recipes, target)[0].startTime)
  {
    TimelineProperties(recipes, target, 0);
    SortedEarliestIsFirst(TimelineOf(recipes, target));
  }

  /**
   * A problem `validate_timeline` reports. A start in the past carries how
   * long ago it was, in seconds; the message shows it in minutes.
   */
  datatype TimelineIssue =
    | PastStartTime(secondsPast: int)
    | OverlappingActiveSteps(firstRecipe: string, secondRecipe: string)

  /** Only a start in the past is an error; overlaps are warnings. */
  predicate IsError(i: TimelineIssue)
  {
    i.PastStartTime?
  }

  /** No issue in the list is an error. */
  predicate NoErrors(issues: seq<TimelineIssue>)
  {
    forall k :: 0 <= k < |issues| ==> !IsError(issues[k])
  }

  datatype TimelineValidation = TimelineValidation(valid: bool, issues: seq<TimelineIssue>)

  /** Steps needing full attention: cooking that cannot run unattended. */
  predicate IsActive(s: TimelineStep) { s.isCooking && !s.canMultitask }

  /**
   * The active steps the overlap check compares: every cooking step that
   * cannot be left unattended, in timeline order, and no other step.
   */
  function ActiveCookingSteps(steps: seq<TimelineStep>): (r: seq<TimelineStep>)
    ensures r == Filter(IsActive, steps)
    ensures forall i :: 0 <= i < |r| ==> r[i] in steps && r[i].isCooking && !r[i].canMultitask
  {
    if steps == [] then []
    else
      FilterCons(IsActive, steps[0], steps[1..]);
      assert [steps[0]] + steps[1..] == steps;
      (if steps[0].isCooking && !steps[0].canMultitask then [steps[0]] else []) + ActiveCookingSteps(steps[1..])
  }

  /** Two steps of different recipes whose time spans intersect. */
  predicate Conflict(a: TimelineStep, b: TimelineStep)
  {
    a.startTime < b.endTime && b.startTime < a.endTime && a.recipeName != b.recipeName
  }

  function PairIssue(a: TimelineStep, b: TimelineStep): seq<TimelineIssue>
  {
    if Conflict(a, b) then [OverlappingActiveSteps(a.recipeName, b.recipeName)] else []
  }

  /** The issues found comparing `s[i]` with `s[i+1..j]`. */
  function RowUpTo(s: seq<TimelineStep>, i: nat, j: nat): seq<TimelineIssue>
    requires i < j <= |s|
    decreases j
  {
    if j == i + 1 then [] else RowUpTo(s, i, j - 1) + PairIssue(s[i], s[j - 1])
  }

  /** The issues found by the first `n` rounds of the outer loop. */
  function RowsUpTo(s: seq<TimelineStep>, n: nat): seq<TimelineIssue>
    requires n <= |s|
  {
    if n == 0 then [] else RowsUpTo(s, n - 1) + RowUpTo(s, n - 1, |s|)
  }

  /** Every issue reported for active steps, in the order the loops find them. */
  function TimelineIssues(steps: seq<TimelineStep>, now: int): seq<TimelineIssue>
  {
    if steps == [] then []
    else
      var earliest := EarliestStart(steps);
      var active := ActiveCookingSteps(steps);
      (if earliest <= now then [PastStartTime(now - earliest)] else [])
      + RowsUpTo(active, |active|)
  }

  method ValidateTimeline(steps: seq<TimelineStep>, now: int) returns (v: TimelineValidation)
    ensures v.issues == TimelineIssues(steps, now)
    ensures v.valid == NoErrors(v.issues)
  {
    if steps == [] {
      return TimelineValidation(true, []);
    }
    var issues: seq<TimelineIssue> := [];
    var earliest := EarliestStart(steps);
    if earliest <= now {
      issues := issues + [PastStartTime(now - earliest)];
    }
    var active := ActiveCookingSteps(steps);
    var overlaps := FindOverlaps(active);
    issues := issues + overlaps;
    v := TimelineValidation(NoErrors(issues), issues);
  }

  /** The nested loops of `validate_timeline` comparing every pair of active steps once. */
  method FindOverlaps(active: seq<TimelineStep>) returns (issues: seq<TimelineIssue>)
    ensures issues == RowsUpTo(active, |active|)
  {
    issues := [];
    for i := 0 to |active|
      invariant issues == RowsUpTo(active, i)
    {
      ghost var rows := issues;
      for j := i + 1 to |active|
        invariant issues == rows + RowUpTo(active, i, j)
      {
        ghost var before := issues;
        if Conflict(active[i], active[j]) {
          issues := issues + [OverlappingActiveSteps(active[i].recipeName, active[j].recipeName)];
        }
        assert issues == before + PairIssue(active[i], active[j]);
        assert RowUpTo(active, i, j + 1) == RowUpTo(active, i, j) + PairIssue(active[i], active[j]);
      }
      assert RowsUpTo(active, i + 1) == RowsUpTo(active, i) + RowUpTo(active, i, |active|);
    }
  }

  lemma {:induction false} RowHasNoErrors(s: seq<TimelineStep>, i: nat, j: nat)
    requires i < j <= |s|
    ensures forall k :: 0 <= k < |RowUpTo(s, i, j)| ==> !IsError(RowUpTo(s, i, j)[k])
    decreases j
  {
    if j > i + 1 {
      RowHasNoErrors(s, i, j - 1);
    }
  }

  lemma {:induction false} RowsHaveNoErrors(s: seq<TimelineStep>, n: nat)
    requires n <= |s|
    ensures forall k :: 0 <= k < |RowsUpTo(s, n)| ==> !IsError(RowsUpTo(s, n)[k])
  {
    if n > 0 {
      RowsHaveNoErrors(s, n - 1);
      RowHasNoErrors(s, n - 1, |s|);
    }
  }

  /** A timeline is valid exactly when it is empty or its earliest step starts after now. */
  lemma TimelineValidIff(steps: seq<TimelineStep>, now: int)
    ensures NoErrors(TimelineIssues(steps, now)) <==> (steps == [] || EarliestStart(steps) > now)
  {
    if steps != [] {
      var active := ActiveCookingSteps(steps);
      RowsHaveNoErrors(active, |active|);
      if EarliestStart(steps) <= now {
        assert IsError(TimelineIssues(steps, now)[0]);
      }
    }
  }

  /** Pair `(i, j)` with `i < j < k` is examined while building the row of `i` up to `k`. */
  lemma {:induction false} RowFindsConflict(s: seq<TimelineStep>, i: nat, j: nat, k: nat, y: TimelineIssue)
    requires i < j < k <= |s| && y in PairIssue(s[i], s[j])
    ensures y in RowUpTo(s, i, k)
    decreases k
  {
    assert RowUpTo(s, i, k) == RowUpTo(s, i, k - 1) + PairIssue(s[i], s[k - 1]);
    if j < k - 1 {
      RowFindsConflict(s, i, j, k - 1, y);
    }
  }

  /** Pair `(i, j)` is examined in the rounds of the outer loop from round `i` on. */
  lemma {:induction false} RowsFindConflict(s: seq<TimelineStep>, i: nat, j: nat, n: nat, y: TimelineIssue)
    requires i < j < |s| && i < n <= |s| && y in PairIssue(s[i], s[j])
    ensures y in RowsUpTo(s, n)
    decreases n
  {
    RowsUpToIn(s, n, y);
    if i + 1 < n {
      RowsFindConflict(s, i, j, n - 1, y);
    } else {
      RowFindsConflict(s, i, j, |s|, y);
    }
  }

  /** An issue is found by `n` rounds exactly when the first `n - 1` rounds or the last one find it. */
  lemma RowsUpToIn(s: seq<TimelineStep>, n: nat, x: TimelineIssue)
    requires 0 < n <= |s|
    ensures x in RowsUpTo(s, n) <==> x in RowsUpTo(s, n - 1) || x in RowUpTo(s, n - 1, |s|)
  {
  }

  lemma {:induction false} RowReportsConflict(s: seq<TimelineStep>, i: nat, k: nat, x: TimelineIssue)
    requires i < k <= |s| && x in RowUpTo(s, i, k)
    ensures exists j :: i < j < k && Conflict(s[i], s[j]) && x == OverlappingActiveSteps(s[i].recipeName, s[j].recipeName)
    decreases k
  {
    if x in RowUpTo(s, i, k - 1) {
      RowReportsConflict(s, i, k - 1, x);
    } else {
      assert x in PairIssue(s[i], s[k - 1]);
    }
  }

  lemma {:induction false} RowsReportConflict(s: seq<TimelineStep>, n: nat, x: TimelineIssue)
    requires n <= |s| && x in RowsUpTo(s, n)
    ensures exists i, j ::
              0 <= i < j < |s| && Conflict(s[i], s[j]) && x == OverlappingActiveSteps(s[i].recipeName, s[j].recipeName)
  {
    RowsUpToIn(s, n, x);
    if x in RowsUpTo(s, n - 1) {
      RowsReportConflict(s, n - 1, x);
    } else {
      RowReportsConflict(s, n - 1, |s|, x);
    }
  }

  /**
   * An overlap warning is reported for a pair of active steps listed in that
   * order exactly when the two belong to different recipes and their time
   * spans intersect.
   */
  lemma OverlapReported(steps: seq<TimelineStep>, now: int, first: string, second: string)
    requires steps != []
    ensures var active := ActiveCookingSteps(steps);
      OverlappingActiveSteps(first, second) in TimelineIssues(steps, now)
      <==> exists i, j :: 0 <= i < j < |active| && Conflict(active[i], active[j])
             && active[i].recipeName == first && active[j].recipeName == second
  {
    var active := ActiveCookingSteps(steps);
    var x := OverlappingActiveSteps(first, second);
    if x in TimelineIssues(steps, now) {
      assert x in RowsUpTo(active, |active|);
      RowsReportConflict(active, |active|, x);
    }
    if exists i, j :: 0 <= i < j < |active| && Conflict(active[i], active[j])
        && active[i].recipeName == first && active[j].recipeName == second
    {
      var i, j :| 0 <= i < j < |active| && Conflict(active[i], active[j])
        && active[i].recipeName == first && active[j].recipeName == second;
      assert x in PairIssue(active[i], active[j]);
      RowsFindConflict(active, i, j, |active|, x);
    }
  }
}
