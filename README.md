# meal-time, modelled in Dafny

meal-time is a planner for cooking several recipes at once. It stores recipes,
each with a name, ingredients, instruction steps and one duration in minutes
per step. It validates recipes before storing them. It fills in missing step
durations with a predictor, or by reading time phrases ("10-15 minutes",
"1½ hours", "about 20 min") out of the step text. It can split a step that
holds several timed instructions into separate steps. Given a selection of
recipes and a target serving time, it schedules every recipe's steps back to
back so that all recipes finish at the target. It then merges the schedules
into one timeline sorted by start time, and checks that no step starts in the
past and that no two hands-on cooking steps of different recipes overlap. Its
dashboard panels summarise the collection, list recipes with problems, filter
and sort the collection, and analyse step times and ingredients.

The model covers these modules:

- `Recipes`: the recipe record and case-insensitive lookup by name.
- `Validation`: recipe, target-time, selection and feasibility checks.
- `Timeline`: per-recipe scheduling, the merged sorted timeline, its in-place
  numbering, its summary and its validation.
- `StepSplitter`: time extraction by the first matching pattern, splitting at
  conjunctions and sentences, instruction clean-up, and per-recipe splitting.
- `StepTimeParser`: parsing time values and ranges, deduplicating the phrases
  found, splitting a step per time, the predictor fallback, step-time
  suggestions, and per-recipe processing.
- `RecipeStore`: the validating recipe service, a class over a `seq` of
  recipes with add, update, delete, import, filling in missing times,
  enhancing every recipe, analysis, and organising a selection into a
  timeline.
- `SimpleRecipeStore`: the older, unvalidated service class.
- `RecipeFilter`: search, the timing filter, sorting and the criteria
  dictionary.
- `ProblemRecipes`, `CollectionOverview`, `AnalysisTools`: the computations
  behind the dashboard panels.
- `Sorting`: the stable sort, used wherever the source calls `sorted`
  or `.sort`.
- `Basics`, `Text`, `Config`: shared helpers, ASCII text functions and
  constants.

Units and clocks:

- Instants are whole seconds.
- Durations are whole minutes; they are multiplied by 60 when added to an
  instant.
- A gap between two steps and a timing shortage are `real` numbers of minutes.
- Wherever the source reads the clock, the caller passes the time instead.
  `OrganizeRecipes` takes two such times. `now` stands for three reads:
  the default target (`src/meal_time_logic/services/recipe_service.py:154`),
  the target check (`meal_time/services/validation_service.py:50`) and the
  feasibility check (`meal_time/services/validation_service.py:132`).
  `later` is the read used to validate the timeline
  (`src/meal_time_logic/services/recipe_service.py:193`).

Regular expressions and the learned model are parameters:

- `StepSplitter.Regex` and `StepTimeParser.Matcher` are records of functions.
  They return the typed matches of each of the source's patterns; everything
  done with a match is modelled concretely.
- `StepTimeParser.Predictor` is the duration predictor. When untrained it
  answers 5 minutes. When trained it answers the model's estimate, truncated,
  and never less than 1.

Choices the code makes that a reader might not expect. The model follows the
code in each of them. Elsewhere it deliberately computes something else in
two conversions, listed under "## Findings", and in its unbounded instants,
which the last item below describes:

- `validate_recipe_selection` looks names up exactly, and a later recipe with
  the same name replaces an earlier one (`Validation.RecipeIndexLast`).
  `organize_recipes` then looks each accepted recipe up again, ignoring case
  and taking the first match (`RecipeStore.Relookup`). An empty selection is
  rejected (`src/meal_time_logic/services/recipe_service.py:157-159`).
- `generate_missing_step_times` counts every recipe that lacked complete
  timing. It counts it even when the predicted times leave the recipe as it
  was.
- A start in the past is reported with the number of seconds it lies in the
  past. The source's message shows it in minutes.
- The timeline summary's `recipes` is a set of recipe names.
- In `split_step`, the final punctuation split serves both the last
  conjunction and the sentence fallback.
- `RecipeStore.Handle` models the `except` clause of `organize_recipes`.
  In the source, the failure it wraps is a date outside the range Python's
  `datetime` can hold, met while the timeline is built. Instants here are
  unbounded integers, so no such failure arises and the wrapping branch is
  never taken: `RecipeStore.OrganizeErrors` proves that organising never
  fails with a `TimelineFailure` (see "## Left out").

## Model

| member | source | states |
|---|---|---|
| Timeline.ProcessSingleRecipe | meal_time/services/timeline_service.py:52-85 | The loop that walks the steps from the end builds exactly the recipe's timeline, `RecipeTimeline`. |
| Timeline.RecipeTimelineChained | meal_time/services/timeline_service.py:60-85 | A schedulable recipe gets one timeline step per recipe step. The last step ends at the target and the first starts the summed duration (in seconds) before it. Each step starts where the previous one ends, lasts its own duration, keeps its text, is numbered from 1 and carries the recipe's name. |
| Timeline.RecipeTimelineEnds | meal_time/services/timeline_service.py:61-83 | The recipe's steps finish exactly at the target and begin the recipe's total duration earlier. |
| Timeline.RecipeTimelineBackToBack | meal_time/services/timeline_service.py:67-83 | Consecutive steps of one recipe leave no gap and do not overlap. |
| Timeline.RecipeTimelineSteps | meal_time/services/timeline_service.py:62-80 | Each timeline step is the recipe step at the same position. It has that step's duration, number, the recipe colour `RECIPE_COLORS[index % 8]`, and the prep, cooking and multitask flags its own text gives. |
| Timeline.RecipeTimelineOrdered | meal_time/services/timeline_service.py:61-83 | With non-negative durations, a recipe's timeline is in start-time order. |
| Timeline.CollectSteps | meal_time/services/timeline_service.py:38-46 | Collecting every selected recipe's steps, the i-th in colour i, yields the concatenation of their timelines. |
| Timeline.GenerateTimeline | meal_time/services/timeline_service.py:33-50 | The method returns the sorted, numbered timeline `TimelineOf`. |
| Timeline.AddTimelineMetadata | meal_time/services/timeline_service.py:87-97 | The in-place pass over the array leaves in it the same steps numbered in order, each with its gap to the previous step. |
| Timeline.WithMetadataNumbers | meal_time/services/timeline_service.py:89-95 | After the metadata pass, step i has order i + 1. Its gap is the minutes between the previous step's end and its start. The first gap is 0. |
| Timeline.TimelineMetadata | meal_time/services/timeline_service.py:87-97 | The generated timeline is numbered 1, 2, ... and carries the gaps between its consecutive steps. |
| Timeline.TimelineProperties | meal_time/services/timeline_service.py:40-49 | The timeline is a permutation of all the recipes' steps and is sorted by start time. Steps with the same start time keep their collection order, so the sort is stable. |
| Timeline.TimelineIsSortedSteps | meal_time/services/timeline_service.py:48-50 | Without its metadata, the timeline is exactly the stable sort of the collected steps by start time. |
| Timeline.EarliestStart | meal_time/services/timeline_service.py:116 | The result is the start time of some step and no step starts earlier. |
| Timeline.SortedEarliestIsFirst | meal_time/services/timeline_service.py:116 | In a start-sorted timeline the earliest start is the first step's. |
| Timeline.TimelineSummaryOf | meal_time/services/timeline_service.py:111-146 | An empty timeline gives the all-zero summary. Otherwise the summary starts at the earliest step and ends at the target, and its total is the whole minutes between them, truncated. Its recipe set holds exactly the names that occur. Its step count is the timeline's length, and the prep, cooking and multitask counts are the numbers of steps with each flag. |
| Basics.CountIfIsFilterLength | meal_time/services/timeline_service.py:120-122 | Counting the elements that satisfy a test gives the length of the list of those elements. |
| Timeline.SummaryOfTimeline | meal_time/services/timeline_service.py:116 | The summary of a generated timeline starts at its first step. |
| Timeline.ActiveCookingSteps | meal_time/services/timeline_service.py:165 | The kept steps are exactly the timeline's cooking steps that cannot be left unattended, in timeline order. |
| Timeline.ValidateTimeline | meal_time/services/timeline_service.py:148-180 | The reported issues are the past-start issue followed by the overlap issues, in loop order. The timeline is valid exactly when no issue is an error. |
| Timeline.FindOverlaps | meal_time/services/timeline_service.py:165-175 | The nested loop over pairs of active steps reports every conflicting pair, row by row. |
| Timeline.TimelineValidIff | meal_time/services/timeline_service.py:150-178 | A timeline is valid if and only if it is empty or its earliest step starts after the current time. Overlaps are only warnings. |
| Timeline.RowsHaveNoErrors | meal_time/services/timeline_service.py:171-175 | Overlap issues are never errors. |
| Timeline.RowsReportConflict | meal_time/services/timeline_service.py:166-175 | Every overlap reported names the recipes of two active steps, i before j, of different recipes whose spans intersect. |
| Timeline.RowsFindConflict | meal_time/services/timeline_service.py:166-175 | Every such conflicting pair is reported. |
| Timeline.OverlapReported | meal_time/services/timeline_service.py:164-175 | An overlap between recipes A and B is among the issues if and only if some active step of A precedes a conflicting active step of B. |
| Validation.ValidateRecipe | meal_time/services/validation_service.py:15-45 | The issues are reported in the order the checks are made. |
| Validation.ValidateRecipeReports | meal_time/services/validation_service.py:17-45 | Each issue is reported exactly when its condition holds: a blank name, no steps, no ingredients, a step-time count mismatch, a time under the minimum, a time over the maximum, a negative prep time, a negative cook time. |
| Validation.ValidateRecipeEmptyIff | meal_time/services/validation_service.py:15-45 | A recipe has no issues if and only if it satisfies all the checks at once. |
| Validation.ValidateTargetTime | meal_time/services/validation_service.py:47-73 | The target is valid exactly when it lies in the future, and then there are no errors. A past target has exactly the one past-time error and no warnings. A target under the minimum preparation time away warns that timing is tight, and one more than a day away warns that it is far. There is at most one warning. |
| Validation.RecipeIndexDomain | meal_time/services/validation_service.py:90 | The name index holds exactly the stored names. |
| Validation.RecipeIndexLast | meal_time/services/validation_service.py:90 | Each name maps to the last stored recipe with that name. |
| Validation.ValidateRecipeSelection | meal_time/services/validation_service.py:75-111 | An empty selection fails with only the nothing-selected error. Otherwise the accepted recipes and rejected names come from the index. The errors list each rejected name and, when nothing was accepted, a final no-valid-recipes error. The selection is valid exactly when something was accepted. |
| Validation.SelectionPartition | meal_time/services/validation_service.py:85-111 | Every selected name is either accepted or rejected, exactly once. Rejected names are exactly the selected names not accepted. Accepted recipes are stored and valid. |
| Validation.EstimateTotalTimeNeeded | meal_time/services/validation_service.py:113-126 | The loop computes the time the selection needs, `TimeNeeded`. |
| Validation.TimeNeededIsMax | meal_time/services/validation_service.py:113-126 | The time needed is the largest per-recipe estimate: non-negative, at least every estimate, and equal to one of them unless it is 0. |
| Validation.ValidateTimelineFeasibility | meal_time/services/validation_service.py:128-155 | The plan is feasible exactly when the time needed fits before the target. Otherwise the shortage is the minutes missing. It is tight when feasible but above the warning fraction of the time available. The time available is in whole minutes. |
| StepSplitter.UnitTables | meal_time/utils/step_splitter.py:76-118 | For every unit word, each substring test on it (`'hour' in unit`, `'hr' in unit`, ...) holds exactly for the words that the conversion tables list. |
| StepSplitter.Trunc | meal_time/utils/step_splitter.py:104 | `int()` of a non-negative value is the whole number at or just below it. |
| StepSplitter.RangeMinutes | meal_time/utils/step_splitter.py:71-80 | The minutes of a range lie between its ends, converted to minutes for hour ranges. |
| StepSplitter.ConversionExamples | meal_time/utils/step_splitter.py:71-118 | The source's conversions give "10-15 minutes" 12, "1-2 hours" 90, "1.5 hrs" 90, "1 hour and 30 minutes" 90, "2 hrs 15 mins" 135, "90 seconds" 1 and "about 20 minutes" 20. |
| StepSplitter.ApproxAsWrittenDropsShortUnits | meal_time/utils/step_splitter.py:82-93 | As written, "about 10 mins" and "around 2 hrs" give 0 minutes. The corrected conversion gives 10 and 120. |
| StepSplitter.ApproxAgreesWithPlain | meal_time/utils/step_splitter.py:82-93 | The corrected approximate conversion agrees with the plain minute and hour conversions for every unit word. The as-written one agrees only for the long unit words. |
| StepSplitter.ExtractTimeFromText | meal_time/utils/step_splitter.py:55-120 | The method returns `ExtractTime`, the first match of the first pattern that matches, converted. |
| StepSplitter.FirstMatchIsFirst | meal_time/utils/step_splitter.py:63-65 | The search finds nothing exactly when no pattern matches. Otherwise it returns the first match of the earliest pattern that matches. |
| StepSplitter.ExtractTimeFirstPatternWins | meal_time/utils/step_splitter.py:61-120 | No time is found exactly when no pattern matches the stripped, lower-cased text, and then no phrase is found either. Otherwise the minutes and phrase come from the first match of the earliest matching pattern, and the minutes are non-negative. |
| StepSplitter.HasMultipleTimeInstructions | meal_time/utils/step_splitter.py:122-140 | The method computes `HasMultipleTimes`. |
| StepSplitter.TimeCountZero | meal_time/utils/step_splitter.py:129-131 | The number of patterns that match is zero exactly when none does. |
| StepSplitter.MultipleTimesRule | meal_time/utils/step_splitter.py:139-140 | No pattern matching means a single instruction. Two or more matching patterns mean several. With exactly one, there are several exactly when a conjunction occurs. |
| StepSplitter.Pieces | meal_time/utils/step_splitter.py:168-183 | Cutting the text at the matched spans always leaves at least one piece. |
| StepSplitter.NonBlankParts | meal_time/utils/step_splitter.py:189-195 | Every part kept is stripped of surrounding space, and there are no more parts than pieces. |
| StepSplitter.CollapseSpaces | meal_time/utils/step_splitter.py:241 | Collapsing runs of whitespace never lengthens the text, empties only the empty text, and keeps whether it starts or ends with space. |
| StepSplitter.DropLeadingWord | meal_time/utils/step_splitter.py:244 | Removing a leading "and"/"then"... word never lengthens the text and keeps stripped text stripped. |
| StepSplitter.FixSeparatorBeforePeriod | meal_time/utils/step_splitter.py:247 | The fix never empties a text. |
| StepSplitter.FixTrailingSeparator | meal_time/utils/step_splitter.py:248 | The fix never empties a text. |
| StepSplitter.Capitalize | meal_time/utils/step_splitter.py:251-252 | Only the first character changes, and it is not lower-case afterwards. |
| StepSplitter.EnsurePeriod | meal_time/utils/step_splitter.py:255-256 | A non-empty text ends with end punctuation afterwards and keeps its first character. The empty text stays empty. |
| StepSplitter.CleanInstruction | meal_time/utils/step_splitter.py:237-258 | Cleaning empties only whitespace text. Any other text becomes a clean instruction: stripped, capitalised and ending in punctuation. |
| StepSplitter.PartStep | meal_time/utils/step_splitter.py:208-224 | A kept part is a clean instruction long enough to keep. Its time and phrase are those extracted from the stripped part. |
| StepSplitter.SplitAtConjunction | meal_time/utils/step_splitter.py:160-184 | The conjunction loop yields `ConjunctionParts`: the non-blank pieces between the matches of the first splitting conjunction. |
| StepSplitter.InstructionsFromParts | meal_time/utils/step_splitter.py:206-224 | The loop keeps exactly the parts that produce a step, in order. |
| StepSplitter.SplitStepMethod | meal_time/utils/step_splitter.py:142-235 | The method returns `SplitStepOf`. |
| StepSplitter.SplitStepWhole | meal_time/utils/step_splitter.py:151-158 | Splitting always yields at least one step. A step without several time instructions stays whole. |
| StepSplitter.KeptPartsClean | meal_time/utils/step_splitter.py:219 | Every instruction kept from the parts is clean. |
| StepSplitter.SplitStepClean | meal_time/utils/step_splitter.py:206-235 | A split either keeps the step whole or yields only clean instructions. |
| StepSplitter.SplitRecipeSteps | meal_time/utils/step_splitter.py:260-278 | The method returns the flattened split of every step, texts and durations. |
| StepSplitter.AppendBlock | meal_time/utils/step_splitter.py:272-276 | One step's split is appended to both lists. |
| StepSplitter.SplitRecipeAppend | meal_time/utils/step_splitter.py:269-276 | Splitting a concatenation of step lists is concatenating their splits. |
| StepSplitter.SplitRecipeLength | meal_time/utils/step_splitter.py:266-278 | The split recipe has one duration per step and no fewer steps than before. |
| StepSplitter.SplitRecipeSingle | meal_time/utils/step_splitter.py:151-158 | A step without several time instructions becomes one stripped step with its own time or the default. |
| StepTimeParser.RoundHalfEven | src/meal_time_logic/services/step_time_parser_service.py:129 | `round()` returns a nearest whole number, and the even one on a tie. |
| StepTimeParser.RoundIsNearest | src/meal_time_logic/services/step_time_parser_service.py:129 | The nearest whole number, even on ties, is unique, so it is `round()`'s answer. |
| StepTimeParser.ParseTimeValue | src/meal_time_logic/services/step_time_parser_service.py:138-156 | A value fails to parse only when it is a ratio with zero denominator. A decimal parses as itself and a ratio as its quotient. "½", "¼" and "¾" forms lie strictly between their whole part and the next. |
| StepTimeParser.ParseTimeValueAsWritten | src/meal_time_logic/services/step_time_parser_service.py:143-145 | As written, a ratio with zero denominator raises a division error. Every other value parses as in the corrected parser. |
| StepTimeParser.RatioByZeroRaises | src/meal_time_logic/services/step_time_parser_service.py:111-145 | As written, "1/0 hour" raises. The corrected parser skips that phrase. |
| StepTimeParser.WholeMinutes | src/meal_time_logic/services/step_time_parser_service.py:129 | The minutes are at least 1. From half a minute upwards they are the rounded value. |
| StepTimeParser.ParseTimeMatch | src/meal_time_logic/services/step_time_parser_service.py:106-136 | A match yields nothing exactly when it has no value groups or its value does not parse. Otherwise it keeps the phrase and position. Its minutes are at least 1: the rounded midpoint for a range, the rounded value otherwise. |
| StepTimeParser.RangeExamples | src/meal_time_logic/services/step_time_parser_service.py:113-129 | "10-15 minutes" gives 12 and "1-2 hours" gives 90. |
| StepTimeParser.FractionExamples | src/meal_time_logic/services/step_time_parser_service.py:113-129 | "1/2 hour" gives 30 and "1½ minutes" gives 2. |
| StepTimeParser.ShortExamples | src/meal_time_logic/services/step_time_parser_service.py:113-129 | "2.5 minutes" gives 2, "30 seconds" 1, "90 seconds" 2, and "cook until done" nothing. |
| StepTimeParser.CollectTimes | src/meal_time_logic/services/step_time_parser_service.py:90-94 | The loop appends the parsed times of the matches, skipping those that do not parse. |
| StepTimeParser.KeepFirstPhrases | src/meal_time_logic/services/step_time_parser_service.py:96-104 | The loop keeps the first time of each phrase, `FirstOccurrences`. |
| StepTimeParser.ExtractAllTimes | src/meal_time_logic/services/step_time_parser_service.py:86-104 | The method returns `AllTimes`: every pattern's parsed times, sorted by position, first of each phrase. |
| StepTimeParser.FirstOccurrencesPhrases | src/meal_time_logic/services/step_time_parser_service.py:97-104 | Deduplication keeps every phrase. |
| StepTimeParser.FirstOccurrencesDistinct | src/meal_time_logic/services/step_time_parser_service.py:97-104 | No phrase is kept twice. |
| StepTimeParser.FirstOccurrencesEarliest | src/meal_time_logic/services/step_time_parser_service.py:97-104 | Each kept time is the earliest time with its phrase. |
| StepTimeParser.FirstOccurrencesSubset | src/meal_time_logic/services/step_time_parser_service.py:97-104 | Only times from the input are kept. |
| StepTimeParser.FirstOccurrencesByStart | src/meal_time_logic/services/step_time_parser_service.py:97-104 | Deduplication keeps the position order. |
| StepTimeParser.RawTimesPositive | src/meal_time_logic/services/step_time_parser_service.py:127-129 | Every parsed time is at least one minute. |
| StepTimeParser.AllTimesPositive | src/meal_time_logic/services/step_time_parser_service.py:129 | Every extracted time is at least one minute. |
| StepTimeParser.SortingKeepsPhrases | src/meal_time_logic/services/step_time_parser_service.py:99 | Sorting by position keeps every phrase. |
| StepTimeParser.AllTimesProperties | src/meal_time_logic/services/step_time_parser_service.py:86-104 | The extracted times are in position order, with distinct phrases and all the phrases found. Each is the earliest of its phrase, all are positive, and there are none exactly when nothing parsed. |
| StepTimeParser.UntilPatternYieldsNothing | src/meal_time_logic/services/step_time_parser_service.py:111-136 | The "until done" pattern, which has no value groups, contributes no time. |
| StepTimeParser.TruncReal | src/meal_time_logic/ml/step_time_predictor.py:32 | `int()` truncates toward zero. |
| StepTimeParser.Predict | src/meal_time_logic/ml/step_time_predictor.py:27-32 | A prediction is at least one minute. It is 5 from an untrained predictor and otherwise the model's estimate, truncated. |
| StepTimeParser.SplitByTimes | src/meal_time_logic/services/step_time_parser_service.py:158-189 | The step gives one part per time found. |
| StepTimeParser.SplitByTimesPieces | src/meal_time_logic/services/step_time_parser_service.py:158-189 | Part i is the piece of text around time i. |
| StepTimeParser.SplitStepByTimes | src/meal_time_logic/services/step_time_parser_service.py:158-189 | The loop builds `SplitByTimes`. |
| StepTimeParser.ContextKeepsPhrase | src/meal_time_logic/services/step_time_parser_service.py:172-179 | The context cut around a time still contains its phrase. |
| StepTimeParser.PieceKeepsPhrase | src/meal_time_logic/services/step_time_parser_service.py:170-179 | Each part's text is its context and contains its phrase. |
| StepTimeParser.ParseStepTimes | src/meal_time_logic/services/step_time_parser_service.py:50-84 | The method returns `ParseStep`. |
| StepTimeParser.ParseStepShape | src/meal_time_logic/services/step_time_parser_service.py:56-84 | A step gives one part per time found, or one part when none is found. Every part keeps the stripped original text and lasts at least a minute. |
| StepTimeParser.ParseStepPredicted | src/meal_time_logic/services/step_time_parser_service.py:61-70 | A step without a time stays whole with the predicted duration and predicted confidence. |
| StepTimeParser.ParseStepExtracted | src/meal_time_logic/services/step_time_parser_service.py:72-84 | A step with n times gives n parts with extracted confidence, each lasting its time and carrying its phrase. One time keeps the whole text. Several times cut the text into pieces. |
| StepTimeParser.SuggestStepTime | src/meal_time_logic/services/step_time_parser_service.py:191-224 | The method returns `Suggest`. |
| StepTimeParser.SuggestProperties | src/meal_time_logic/services/step_time_parser_service.py:191-224 | A suggestion is at least a minute. It is extracted, with high confidence, exactly when times are found, and then it is the earliest time and lists each distinct phrase. Otherwise it is the prediction. Its confidence is medium-high for sure keywords, low for unsure keywords only, and medium for neither. |
| StepTimeParser.AppendParsed | src/meal_time_logic/services/step_time_parser_service.py:246-249 | One step's parts are appended to the texts, times and confidences. |
| StepTimeParser.ProcessRecipeSteps | src/meal_time_logic/services/step_time_parser_service.py:228-251 | The method returns `ProcessSteps`: the flattened parts of every step. |
| StepTimeParser.ProcessStepsAppend | src/meal_time_logic/services/step_time_parser_service.py:243-249 | Processing a concatenation of step lists is concatenating the results. |
| StepTimeParser.ProcessStepsBounds | src/meal_time_logic/services/step_time_parser_service.py:239-251 | The three lists have equal length, at least the number of steps, and every time is at least a minute. |
| RecipeStore.FillTimesProperties | src/meal_time_logic/services/recipe_service.py:132-135 | Afterwards every recipe has one time per step and keeps its name and steps. Complete recipes are unchanged. Filled-in times are at least a minute. |
| RecipeStore.FillTimesKeepsNames | src/meal_time_logic/services/recipe_service.py:132-135 | Filling in times keeps the names distinct. |
| RecipeStore.LackingNamesCount | src/meal_time_logic/services/recipe_service.py:131-141 | The names reported are as many as the recipes lacking timing. |
| RecipeStore.FirstFreeCandidateUnique | src/meal_time_logic/services/recipe_service.py:323-327 | The first free import name is unique. |
| RecipeStore.LowerCandidatesSize | src/meal_time_logic/services/recipe_service.py:325-327 | The candidate names "name (1)", "name (2)", ... are distinct ignoring case. |
| RecipeStore.TakenCandidatesBound | src/meal_time_logic/services/recipe_service.py:325-327 | No more candidates can be taken than there are stored recipes, so the search for a free name ends. |
| RecipeStore.UniqueName | src/meal_time_logic/services/recipe_service.py:323-327 | The loop finds the first free candidate name, and reports a change exactly when the name differs. |
| RecipeStore.ProcessRecipeProperties | src/meal_time_logic/services/recipe_service.py:374-404 | A recipe without steps comes back unchanged. Otherwise the processed recipe has complete timing, at least as many steps, every time at least a minute, and the same name, ingredients, prep and cook times. Its total time is kept if set and otherwise becomes the sum of the step times. |
| RecipeStore.EnhanceAll | src/meal_time_logic/services/recipe_service.py:413-424 | Each recipe is enhanced on its own. |
| RecipeStore.EnhanceAllProperties | src/meal_time_logic/services/recipe_service.py:413-424 | Each recipe keeps its name. It is replaced by its processed form exactly when processing improves it, and is otherwise left as it is. |
| RecipeStore.AnalysisCounts | src/meal_time_logic/services/recipe_service.py:470-498 | Extracted, predicted and user-set times add up to the steps processed. |
| RecipeStore.ReviewsArePredicted | src/meal_time_logic/services/recipe_service.py:474-487 | Each review item names a processed step, by its number from 1 and its text, whose time was predicted. |
| RecipeStore.CollectReviews | src/meal_time_logic/services/recipe_service.py:474-487 | The loop collects the review items, `Reviews`. |
| RecipeStore.RelookupFindsAll | src/meal_time_logic/services/recipe_service.py:173-177 | Looking stored recipes up again finds every one of them. |
| RecipeStore.OrganizeKeepsSelection | src/meal_time_logic/services/recipe_service.py:166-177 | After filling in times, every accepted recipe is found again. |
| RecipeStore.OrganizeInfeasible | src/meal_time_logic/services/recipe_service.py:179-186 | Take a selection that passes and a future target. Organising fails with not-enough-time exactly when the time needed exceeds the time left, and then its required start time is the target minus the time needed. |
| RecipeStore.OrganizeErrors | src/meal_time_logic/services/recipe_service.py:148-207 | A rejected selection, with at least one reason, is reported exactly when the selection fails. A rejected target is reported exactly when the selection passes and the target is not in the future. Every other failure is a timing problem, never a wrapped timeline failure. |
| RecipeStore.OrganizeSuccess | src/meal_time_logic/services/recipe_service.py:148-201 | A successful organise had a passing selection and a future target. Its timeline starts after the second clock read and is sorted by start time. |
| RecipeStore.ScheduleSuccess | src/meal_time_logic/services/recipe_service.py:179-201 | A successful schedule is the generated timeline and starts after the second clock read. |
| RecipeStore.RecipeService.constructor | src/meal_time_logic/services/recipe_service.py:17-34 | The service starts with the given recipes, matcher and predictor. |
| RecipeStore.RecipeService.IndexOf | src/meal_time_logic/services/recipe_service.py:99-100 | The position of the first recipe whose name matches ignoring case. |
| RecipeStore.RecipeService.GetRecipeByName | src/meal_time_logic/services/recipe_service.py:121-126 | The first recipe whose name matches ignoring case, or none. |
| RecipeStore.RecipeService.ListRecipes | src/meal_time_logic/services/recipe_service.py:117-119 | All stored recipes, in order. |
| RecipeStore.RecipeService.GetRecipeValidationIssues | src/meal_time_logic/services/recipe_service.py:298-304 | An unknown name answers not found. A known name answers the validation issues of the first recipe with it, and none exactly when that recipe is valid. |
| RecipeStore.RecipeService.PreviewRecipe | src/meal_time_logic/services/recipe_service.py:346-365 | A preview reports the scraped recipe's validation issues, none exactly when it is valid, and stores nothing. |
| RecipeStore.RecipeService.AddRecipe | src/meal_time_logic/services/recipe_service.py:77-89 | An invalid recipe is refused with its issues, and a name already taken (ignoring case) is refused as a duplicate; neither changes the store. Otherwise the recipe is appended. Names stay distinct. |
| RecipeStore.RecipeService.UpdateRecipe | src/meal_time_logic/services/recipe_service.py:91-105 | An invalid recipe is refused with its issues, and an unknown name fails as not found. Otherwise the recipe replaces the first one with its name, in place. The count is unchanged and names stay distinct. |
| RecipeStore.RecipeService.DeleteRecipe | src/meal_time_logic/services/recipe_service.py:107-115 | An unknown name fails as not found. Otherwise the first recipe with that name is removed and the rest keep their order. Names stay distinct. |
| RecipeStore.RecipeService.GenerateMissingStepTimes | src/meal_time_logic/services/recipe_service.py:128-146 | Every recipe lacking timing gets predicted times. The names and count reported are exactly those recipes. |
| RecipeStore.RecipeService.ImportRecipe | src/meal_time_logic/services/recipe_service.py:318-339 | The imported recipe is appended under the first free candidate name, and otherwise unchanged. Its validation issues are reported, the name change is flagged exactly when the name changed, and names stay distinct. |
| RecipeStore.RecipeService.ProcessRecipeStepTimes | src/meal_time_logic/services/recipe_service.py:374-404 | The method returns the processed recipe, `ProcessRecipe`. |
| RecipeStore.RecipeService.EnhanceAllRecipeTimes | src/meal_time_logic/services/recipe_service.py:406-433 | Every recipe is enhanced in place and the improved ones are counted. |
| RecipeStore.RecipeService.AddRecipeWithTimeProcessing | src/meal_time_logic/services/recipe_service.py:435-446 | The processed recipe is added under the rules of adding a recipe, and returned. |
| RecipeStore.RecipeService.UpdateRecipeWithTimeProcessing | src/meal_time_logic/services/recipe_service.py:448-458 | The processed recipe replaces the stored one under the rules of updating, and is returned. |
| RecipeStore.RecipeService.GetStepTimeAnalysis | src/meal_time_logic/services/recipe_service.py:460-503 | The analysis is that of the recipe's processed steps. |
| RecipeStore.RecipeService.GetCookingSummary | src/meal_time_logic/services/recipe_service.py:226-246 | The summary of the timeline of the named recipes, for the target or an hour from now. |
| RecipeStore.RecipeService.OrganizeRecipes | src/meal_time_logic/services/recipe_service.py:148-207 | The result is `Organize`: a rejected selection, a past target, too little time or a start in the past, each as its error, or the timeline. The store has times filled in exactly when the selection and the target passed. |
| RecipeStore.RecipeService.RelookupAll | src/meal_time_logic/services/recipe_service.py:172-177 | The loop looks the chosen recipes up again, `Relookup`. |
| RecipeStore.ScheduleRecipes | src/meal_time_logic/services/recipe_service.py:179-198 | The feasibility check followed by the timeline, `Schedule`. |
| RecipeStore.BuildTimeline | src/meal_time_logic/services/recipe_service.py:189-198 | The timeline is returned unless its validation reports errors, which are raised as a start in the past. |
| SimpleRecipeStore.OrganizedLength | meal_time/services/recipe_service.py:49-59 | The list has one entry per step of each name's recipe, counted once per occurrence of the name. Unknown names add nothing. |
| SimpleRecipeStore.OrganizedAppend | meal_time/services/recipe_service.py:50-58 | Organising two name lists in turn is organising their concatenation. |
| SimpleRecipeStore.OrganizedEntries | meal_time/services/recipe_service.py:53-58 | Every entry has no time estimate and holds a step of a stored recipe together with that recipe's name. |
| SimpleRecipeStore.OrganizedSingle | meal_time/services/recipe_service.py:51-58 | A known name contributes its recipe's steps, in order. |
| SimpleRecipeStore.RecipeService.constructor | meal_time/services/recipe_service.py:8-10 | The service starts with the given recipes. |
| SimpleRecipeStore.RecipeService.AddRecipe | meal_time/services/recipe_service.py:29-31 | The recipe is appended without any check. |
| SimpleRecipeStore.RecipeService.ListRecipes | meal_time/services/recipe_service.py:33-34 | All stored recipes. |
| SimpleRecipeStore.RecipeService.GetRecipeByName | meal_time/services/recipe_service.py:36-40 | The first recipe whose name matches ignoring case. |
| SimpleRecipeStore.RecipeService.OrganizeRecipes | meal_time/services/recipe_service.py:42-59 | The nested loop returns `Organized`. |
| Recipes.FindIndex | src/meal_time_logic/services/recipe_service.py:121-126 | The first position whose name matches ignoring case. None exactly when no name matches. |
| Recipes.FindByName | meal_time/services/recipe_service.py:36-40 | The first stored recipe whose name matches ignoring case, found exactly when one exists. |
| RecipeFilter.ToDict | src/meal_time_logic/services/recipe_filter_service.py:96-102 | The dictionary has exactly the keys search, timing_filter and sort_by. |
| RecipeFilter.ToDictRoundTrip | src/meal_time_logic/services/recipe_filter_service.py:86-102 | Reading criteria back from their dictionary gives the same criteria. |
| RecipeFilter.SearchFilterMembers | src/meal_time_logic/services/recipe_filter_service.py:24-46 | An empty term keeps everything. Any other term keeps exactly the recipes whose name, ingredients or steps contain it, ignoring case. |
| RecipeFilter.SearchFilterInOrder | src/meal_time_logic/services/recipe_filter_service.py:29-30 | The search keeps the recipes in their original order. |
| RecipeFilter.TimingFilterPartition | src/meal_time_logic/services/recipe_filter_service.py:48-60 | "Complete" and "Incomplete" split the recipes exactly between complete and incomplete timing. Any other value keeps all. |
| RecipeFilter.StrLtAsymmetric | src/meal_time_logic/services/recipe_filter_service.py:65 | String order is asymmetric, so sorting by name is well defined. |
| RecipeFilter.ApplySortingProperties | src/meal_time_logic/services/recipe_filter_service.py:62-80 | Sorting permutes the recipes. "Name" sorts by lower-cased name. "Steps" and "Time" sort descending, stably, by step count or total time. Any other value keeps the order. |
| RecipeFilter.FilterRecipesDefaults | src/meal_time_logic/services/recipe_filter_service.py:9-22 | Empty criteria keep the collection as it is. |
| RecipeFilter.FilterRecipesFromInput | src/meal_time_logic/services/recipe_filter_service.py:9-22 | Every recipe returned is stored, matches the search term and agrees with the timing filter. |
| RecipeFilter.FilterRecipesOfCriteria | src/meal_time_logic/services/recipe_filter_service.py:14-20 | Filtering is search, then the timing filter, then sorting. |
| Sorting.SortBySorted | meal_time/services/timeline_service.py:49 | The stable sort yields a sorted sequence. |
| Sorting.SortByPermutes | meal_time/services/timeline_service.py:49 | The stable sort is a permutation. |
| Sorting.SortByStable | meal_time/services/timeline_service.py:49 | Elements with equal keys keep their relative order. |
| ProblemRecipes.TimingIssuesReport | src/components/problem_recipes.py:70-82 | There is at most one very-short and one very-long issue. Each is present exactly when such a duration exists and carries the count of such durations. |
| ProblemRecipes.TimingIssuesEmpty | src/components/problem_recipes.py:70-82 | There is no timing issue exactly when every duration is between 1 and 120 minutes. |
| ProblemRecipes.DurationIssuesKinds | src/components/problem_recipes.py:64-66 | The duration check raises only duration issues. |
| ProblemRecipes.CheckRecipeIssues | src/components/problem_recipes.py:44-68 | The checks, appended one at a time, give `RecipeIssues`. |
| ProblemRecipes.RecipeIssuesIn | src/components/problem_recipes.py:44-68 | An issue is reported exactly when one of the checks raised it. |
| ProblemRecipes.RecipeIssuesReports | src/components/problem_recipes.py:48-62 | Each issue is reported exactly when its condition holds. No step times and a count mismatch exclude each other. A missing total time is reported only for recipes with step times. |
| ProblemRecipes.TimesChecksReport | src/components/problem_recipes.py:48-56 | The step-time and total-time checks are reported exactly when their conditions hold. |
| ProblemRecipes.ContentChecksReport | src/components/problem_recipes.py:58-62 | Missing ingredients and missing steps are reported exactly when they are missing. |
| ProblemRecipes.RecipeIssuesEmptyIff | src/components/problem_recipes.py:44-68 | A recipe has no issue exactly when it has complete timing, a total time, ingredients and plausible durations. |
| ProblemRecipes.ProblemsAreFlagged | src/components/problem_recipes.py:29-42 | The panel lists exactly the recipes with an issue, in store order. |
| ProblemRecipes.ProblemsCarryIssues | src/components/problem_recipes.py:33-40 | Each listed recipe comes with its full, non-empty list of issues. |
| ProblemRecipes.IdentifyProblemRecipes | src/components/problem_recipes.py:29-42 | The loop builds `Problems`. |
| CollectionOverview.CalculateStats | src/components/collection_overview.py:21-35 | The total is the number of recipes. The complete count is the number of recipes with complete timing, so it is at most the total and zero exactly when no recipe has complete timing. |
| CollectionOverview.TotalStepsIsAllSteps | src/components/collection_overview.py:27 | The step total is the number of steps of all recipes together. |
| CollectionOverview.TotalStepsBounds | src/components/collection_overview.py:27 | The step total is at least the number of recipes with steps. |
| CollectionOverview.CompletionPercent | src/components/collection_overview.py:53-61 | The percentage lies between 0 and 100, and is 100 exactly when there are recipes and all are complete. |
| CollectionOverview.SplitHoursMinutes | src/components/collection_overview.py:63-67 | Hours times 60 plus minutes is the total, and the minutes are under 60. |
| CollectionOverview.TimeLabel | src/components/collection_overview.py:63-70 | The label ends in "m", and shows hours exactly when the total is an hour or more. |
| CollectionOverview.Progress | src/components/collection_overview.py:72-78 | A progress bar is shown exactly when there are recipes. Its fraction lies in [0, 1] and equals complete over total. |
| CollectionOverview.CompletionTip | src/components/collection_overview.py:80-90 | The tip is shown exactly when some recipe is incomplete, with the positive number missing. |
| CollectionOverview.TipCountsIncomplete | src/components/collection_overview.py:82-89 | The tip counts exactly the recipes lacking timing, and is absent exactly when all are complete. |
| AnalysisTools.CollectTimingData | src/components/analysis_tools.py:52-62 | The loop gives all step times, and one sum per recipe with times. |
| AnalysisTools.RecipeTimesCount | src/components/analysis_tools.py:57-60 | There is one recipe total per recipe with step times. |
| AnalysisTools.AllStepTimesCount | src/components/analysis_tools.py:57-59 | All step times together are as many as the recipes' step-time counts added up. |
| AnalysisTools.TimingDataSums | src/components/analysis_tools.py:52-62 | All step times and all recipe totals add up to the same number. |
| AnalysisTools.AllStepTimesHolds | src/components/analysis_tools.py:57-59 | Every step time of every recipe is collected. |
| AnalysisTools.TotalCookingTimeIsStepSum | src/components/collection_overview.py:32-34 | The overview's total cooking time is the sum of all collected step times. |
| AnalysisTools.BucketsPartition | src/components/analysis_tools.py:84-86 | The quick, medium and long buckets count every step time exactly once. |
| AnalysisTools.Longest | src/components/analysis_tools.py:77 | The longest time is one of the times and no time exceeds it, or 0 when there are none. |
| AnalysisTools.AppendName | src/components/analysis_tools.py:148-150 | One use is recorded in the ingredient index. |
| AnalysisTools.RecordIngredients | src/components/analysis_tools.py:144-150 | A recipe's cleaned ingredients are appended to the list and recorded in the index. |
| AnalysisTools.CollectIngredientData | src/components/analysis_tools.py:138-156 | The loop gives every cleaned ingredient use and the index built from them. |
| AnalysisTools.IndexProperties | src/components/analysis_tools.py:140-150 | The index holds exactly the ingredients used. Each lists as many recipe names as it has uses, and only recipes that use it. |
| AnalysisTools.UsesCount | src/components/analysis_tools.py:143-146 | There are as many uses as ingredients across the recipes. |
| AnalysisTools.UsesHolds | src/components/analysis_tools.py:143-150 | Every ingredient of every recipe is recorded, cleaned, under that recipe's name. |
| AnalysisTools.UniqueIngredients | src/components/analysis_tools.py:180-181 | The unique ingredients are exactly the index keys, and are no more than the uses. |

## Left out

- Persistence: loading and saving the recipe file (`_load`, `_save`, creating the data directory). A service starts from a given list and each change is a new value of that list.
- Web scraping: `import_recipe_from_url` and `preview_recipe_from_url` are modelled as `ImportRecipe` and `PreviewRecipe`, which take the scraped recipe as a parameter. The URL check `can_scrape_url`, the scraper itself and the error dictionaries returned when either fails are not modelled.
- `export_cooking_timeline` and `_timeline_step_to_dict` only format text and dictionaries for display. `OrganizeRecipes` returns the timeline steps themselves.
- The clock: each `datetime.now()` is a parameter of the operation that reads it, except as the next line says.
- OrganizeRecipes: the three clock reads for the default target, the target check and the feasibility check are taken as one instant `now`. The source reads the clock separately for each, so a target that is barely in the future can pass the target check and then fail the feasibility check or the other way round; the model does not capture that. `Organize` takes the same single `now`.
- OrganizeErrors: instants are unbounded integers, so the two overflow outcomes of the source's `datetime` range are not modelled by Organize or OrganizeRecipes. A required start before year 1 (a recipe whose total time is in the billions of minutes) raises an unwrapped `OverflowError` at `src/meal_time_logic/services/recipe_service.py:181`, outside the `try`. A step start out of range while the timeline is built (`meal_time/services/timeline_service.py:67`) is wrapped in a `TimelineException` at `src/meal_time_logic/services/recipe_service.py:205-207`. The model returns the not-enough-time error or the timeline instead.
- ExtractTimeFromText: uses the corrected "about/around" conversion of "## Findings", so "about 10 mins" gives 10 minutes where the source gives 0.
- SplitStepMethod: uses the corrected "about/around" conversion, as ExtractTimeFromText does.
- SplitRecipeSteps: uses the corrected "about/around" conversion, so a step "Simmer for about 10 mins" keeps 10 minutes where the source stores 0.
- ParseTimeMatch: uses the corrected ratio parse of "## Findings", so "1/0 hour" yields no time where the source raises `ZeroDivisionError`.
- ExtractAllTimes: skips a "1/0" phrase (through ParseTimeMatch) where the source raises.
- ParseStepTimes: falls back to the prediction for a step whose only phrase is "1/0 hour" where the source raises.
- SuggestStepTime: skips a "1/0" phrase where the source raises.
- ProcessRecipeSteps: skips a "1/0" phrase where the source raises.
- ProcessRecipeStepTimes: skips a "1/0" phrase where the source raises.
- EnhanceAllRecipeTimes: skips a "1/0" phrase where the source raises.
- AddRecipeWithTimeProcessing: skips a "1/0" phrase where the source raises.
- UpdateRecipeWithTimeProcessing: skips a "1/0" phrase where the source raises.
- GetStepTimeAnalysis: skips a "1/0" phrase where the source raises.
- Regular expressions: the pattern engine is an oracle. The model therefore accepts whatever matches the oracle returns, including overlapping matches of different patterns, which the source also counts separately.
- The learned duration model: a trained predictor is an arbitrary function from step text to an estimate.
- Floating point: averages, gaps and shortages are exact `real`s. `Counter.most_common(15)` and the averages shown by the analysis panels are not modelled.
- Streamlit rendering: widgets, charts, colours and the "x/y" progress label are not modelled. Only the values they display are.
- Aliasing: the source hands the same recipe objects to several lists. Recipes are values here, so an update through one list is not seen through another.
- RecipeService.GenerateMissingStepTimes: the source wraps any exception in `StepTimePredictionException`. The model's predictor cannot fail, so that path is absent.
- Text: `lower`, `strip` and `isspace` are ASCII-only. Unicode case and whitespace rules are not modelled.
- Issue messages: issues and errors are datatypes rather than the source's formatted strings.
- The `separators` list in `_split_step_by_times` (`src/meal_time_logic/services/step_time_parser_service.py:166`) is never used by the source and so is absent.

## Findings

| source | as written | input that shows it | evidently intended | confidence | as-written member | corrected member |
|---|---|---|---|---|---|---|
| meal_time/utils/step_splitter.py:82-93 | The "about/around" branch converts only when the unit contains "hour", "minute" or "second", and otherwise gives 0 minutes. | "about 10 mins" gives 0; "around 2 hrs" gives 0 | The same unit rules as the plain patterns: 10 and 120 minutes | not executed | StepSplitter.ApproxAsWrittenDropsShortUnits | StepSplitter.ApproxAgreesWithPlain |
| src/meal_time_logic/services/step_time_parser_service.py:143-145 | A fraction is divided as written. A zero denominator raises `ZeroDivisionError`, which the handler at line 133 does not catch because it catches only `ValueError` and `IndexError`. | "1/0 hour" | The phrase is skipped like any other value that does not parse | not executed | StepTimeParser.RatioByZeroRaises | StepTimeParser.ParseTimeValue |
