/**
 * The step splitter: finds durations written in a recipe step ("10-15
 * minutes", "about 1 hour", "2 hrs 15 mins", "90 seconds"), decides whether
 * a step holds several timed instructions, splits such a step at
 * conjunctions, sentence ends or commas, tidies each piece and flattens a
 * recipe's steps into parallel instruction and duration lists.
 *
 * Regular-expression matching is not modelled: a `Regex` value supplies, for
 * each time pattern, its matches in a text (in text order, as `re.findall`
 * reports them and `re.search` returns the first), and for each split
 * pattern, the spans it matches. Everything computed from those matches is.
 */
module StepSplitter {
  import opened Basics
  import opened Text

  type NonNegReal = r: real | r >= 0.0

  /** The unit words the time patterns accept. */
  datatype Unit =
    | Minutes | Minute | Mins | Min
    | Hours | Hour | Hrs | Hr
    | Seconds | Second | Secs | Sec

  function UnitText(u: Unit): string
  {
    match u
    case Minutes => "minutes"
    case Minute => "minute"
    case Mins => "mins"
    case Min => "min"
    case Hours => "hours"
    case Hour => "hour"
    case Hrs => "hrs"
    case Hr => "hr"
    case Seconds => "seconds"
    case Second => "second"
    case Secs => "secs"
    case Sec => "sec"
  }

  /*
   * The substring tests the conversion applies to a unit word, tabulated
   * over the twelve words; the lemma `UnitTables` proves each table equal to
   * the test it stands for.
   */

  /** The unit word contains "hour". */
  predicate SaysHour(u: Unit) { u == Hours || u == Hour }

  /** The unit word contains "minute". */
  predicate SaysMinute(u: Unit) { u == Minutes || u == Minute }

  /** The unit word contains "second". */
  predicate SaysSecond(u: Unit) { u == Seconds || u == Second }

  /** The unit word contains "hour" or "hr": the hour conversion applies. */
  predicate IsHourUnit(u: Unit) { u == Hours || u == Hour || u == Hrs || u == Hr }

  /** The unit word contains "minute" or "min": the minute conversion applies. */
  predicate IsMinuteUnit(u: Unit) { u == Minutes || u == Minute || u == Mins || u == Min }

  /** The unit word contains "second" or "sec": the second conversion applies. */
  predicate IsSecondUnit(u: Unit) { u == Seconds || u == Second || u == Secs || u == Sec }

  /*
   * Each substring test accepts exactly the unit words its table lists: a
   * word it accepts starts with the needle, and a word it rejects lacks one
   * of the needle's characters (or, for `'hr'` in "hour" and "hours", the
   * `h` is not followed by `r` and never recurs).
   */

  lemma HourTest(u: Unit)
    ensures Contains(UnitText(u), "hour") <==> SaysHour(u)
  {
    var w := UnitText(u);
    if SaysHour(u) {
      PrefixContains("hour", w);
    } else if IsHourUnit(u) {
      NotContainsChar(w, "hour", 'o');
    } else {
      NotContainsChar(w, "hour", 'h');
    }
  }

  lemma HrTest(u: Unit)
    ensures Contains(UnitText(u), "hr") <==> (u == Hrs || u == Hr)
  {
    var w := UnitText(u);
    if u == Hrs || u == Hr {
      PrefixContains("hr", w);
    } else if SaysHour(u) {
      assert w[..2][1] == 'o';
      NotContainsChar(w[1..], "hr", 'h');
    } else {
      NotContainsChar(w, "hr", 'h');
    }
  }

  lemma MinuteTest(u: Unit)
    ensures Contains(UnitText(u), "minute") <==> SaysMinute(u)
  {
    var w := UnitText(u);
    if SaysMinute(u) {
      PrefixContains("minute", w);
    } else if IsMinuteUnit(u) {
      NotContainsChar(w, "minute", 't');
    } else {
      NotContainsChar(w, "minute", 'm');
    }
  }

  lemma MinTest(u: Unit)
    ensures Contains(UnitText(u), "min") <==> IsMinuteUnit(u)
  {
    var w := UnitText(u);
    if IsMinuteUnit(u) {
      PrefixContains("min", w);
    } else {
      NotContainsChar(w, "min", 'm');
    }
  }

  lemma SecondTest(u: Unit)
    ensures Contains(UnitText(u), "second") <==> SaysSecond(u)
  {
    var w := UnitText(u);
    if SaysSecond(u) {
      PrefixContains("second", w);
    } else if IsSecondUnit(u) {
      NotContainsChar(w, "second", 'o');
    } else {
      NotContainsChar(w, "second", 'c');
    }
  }

  lemma SecTest(u: Unit)
    ensures Contains(UnitText(u), "sec") <==> IsSecondUnit(u)
  {
    var w := UnitText(u);
    if IsSecondUnit(u) {
      PrefixContains("sec", w);
    } else {
      NotContainsChar(w, "sec", 'c');
    }
  }

  /** The six tables are the six substring tests of the conversion. */
  lemma UnitTables(u: Unit)
    ensures var w := UnitText(u);
      (IsHourUnit(u) <==> Contains(w, "hour") || Contains(w, "hr"))
      && (IsMinuteUnit(u) <==> Contains(w, "minute") || Contains(w, "min"))
      && (IsSecondUnit(u) <==> Contains(w, "second") || Contains(w, "sec"))
      && (SaysHour(u) <==> Contains(w, "hour"))
      && (SaysMinute(u) <==> Contains(w, "minute"))
      && (SaysSecond(u) <==> Contains(w, "second"))
  {
    HourTest(u);
    HrTest(u);
    MinuteTest(u);
    MinTest(u);
    SecondTest(u);
    SecTest(u);
  }

  /** The time patterns, in the order they are tried. */
  datatype TimePattern = RangePattern | ApproxPattern | CompoundPattern | HoursPattern | MinutesPattern | SecondsPattern

  const TimePatterns: seq<TimePattern> :=
    [RangePattern, ApproxPattern, CompoundPattern, HoursPattern, MinutesPattern, SecondsPattern]

  /**
   * A match of a time pattern: what its groups captured, and the whole
   * matched phrase. Each pattern produces matches of its own kind.
   */
  datatype TimeMatch =
    | RangeMatch(lo: nat, hi: nat, unit: Unit, phrase: string)
    | ApproxMatch(value: NonNegReal, unit: Unit, phrase: string)
    | CompoundMatch(hours: NonNegReal, hourUnit: Unit, minutes: nat, phrase: string)
    | HoursMatch(hours: NonNegReal, hourUnit: Unit, extraMinutes: Option<nat>, phrase: string)
    | MinutesMatch(value: NonNegReal, unit: Unit, phrase: string)
    | SecondsMatch(value: NonNegReal, unit: Unit, phrase: string)

  /** The split patterns: the conjunctions in the order they are tried, then the comma rule. */
  datatype SplitPattern =
    | Then | AndThen | Next | AfterThat | FollowedBy | OnceDone | WhenDone
    | Immediately | Meanwhile | AtTheSameTime | WhileCooking | AndServe
    | Punctuation
    | CommaBeforeFor

  const Conjunctions: seq<SplitPattern> :=
    [Then, AndThen, Next, AfterThat, FollowedBy, OnceDone, WhenDone,
     Immediately, Meanwhile, AtTheSameTime, WhileCooking, AndServe, Punctuation]

  /** Half-open character range `[start, end)` of a match. */
  datatype Span = Span(start: nat, end: nat)

  /** The matcher the splitter consults. */
  datatype Regex = Regex(
    times: (TimePattern, string) -> seq<TimeMatch>,
    splits: (SplitPattern, string) -> seq<Span>)

  /** `int(x)` for a non-negative number: truncation, which here is the floor. */
  function Trunc(x: NonNegReal): (n: nat)
    ensures n as real <= x < n as real + 1.0
  {
    x.Floor
  }

  /** A range "lo-hi unit": the true average, in minutes, truncated. */
  function RangeMinutes(lo: nat, hi: nat, u: Unit): (m: nat)
    ensures lo <= hi && IsHourUnit(u) ==> 60 * lo <= m <= 60 * hi
    ensures lo <= hi && !IsHourUnit(u) ==> lo <= m <= hi
  {
    if IsHourUnit(u) then (lo + hi) * 30 else (lo + hi) / 2
  }

  /**
   * An approximate duration as `extract_time_from_text` converts it: only
   * unit words containing "hour", "minute" or "second" are recognised, so
   * "mins", "min", "hrs" and "hr" give 0.
   */
  function ApproxMinutesAsWritten(v: NonNegReal, u: Unit): nat
  {
    if SaysHour(u) then Trunc(v * 60.0)
    else if SaysMinute(u) then Trunc(v)
    else if SaysSecond(u) then Max(1, Trunc(v / 60.0))
    else 0
  }

  /** An approximate duration converted with the unit tests the range branch uses. */
  function ApproxMinutes(v: NonNegReal, u: Unit): nat
  {
    if IsHourUnit(u) then Trunc(v * 60.0)
    else if IsMinuteUnit(u) then Trunc(v)
    else Max(1, Trunc(v / 60.0))
  }

  /** Whole hours and minutes, `int(hours * 60 + minutes)`. */
  function HoursAndMinutes(h: NonNegReal, m: nat): nat
  {
    Trunc(h * 60.0 + m as real)
  }

  /**
   * The minutes a match stands for. Each branch of `extract_time_from_text`
   * is selected by a test (a dash in the phrase, the approximate pattern,
   * four groups with minutes, the unit word) that picks out exactly the
   * matches of one pattern, so the conversion is chosen by the match's kind.
   */
  function MatchMinutes(m: TimeMatch): nat
  {
    match m
    case RangeMatch(lo, hi, u, _) => RangeMinutes(lo, hi, u)
    case ApproxMatch(v, u, _) => ApproxMinutes(v, u)
    case CompoundMatch(h, _, mins, _) => HoursAndMinutes(h, mins)
    case HoursMatch(h, _, extra, _) => HoursAndMinutes(h, if extra.Some? then extra.value else 0)
    case MinutesMatch(v, _, _) => Trunc(v)
    case SecondsMatch(v, _, _) => Max(1, Trunc(v) / 60)
  }

  /** The worked conversions: averages for ranges, truncation, and a floor of one minute for seconds. */
  lemma ConversionExamples()
    ensures RangeMinutes(10, 15, Minutes) == 12
    ensures RangeMinutes(1, 2, Hours) == 90
    ensures MatchMinutes(MinutesMatch(2.5, Minutes, "2.5 minutes")) == 2
    ensures MatchMinutes(MinutesMatch(0.0, Minutes, "0 minutes")) == 0
    ensures MatchMinutes(HoursMatch(1.5, Hrs, None, "1.5 hrs")) == 90
    ensures MatchMinutes(HoursMatch(1.0, Hour, Some(30), "1 hour and 30 minutes")) == 90
    ensures MatchMinutes(CompoundMatch(2.0, Hrs, 15, "2 hrs 15 mins")) == 135
    ensures MatchMinutes(SecondsMatch(90.0, Seconds, "90 seconds")) == 1
    ensures MatchMinutes(ApproxMatch(20.0, Minutes, "about 20 minutes")) == 20
  {
  }

  /** As written, "about 10 mins" and "around 2 hrs" convert to 0 minutes. */
  lemma ApproxAsWrittenDropsShortUnits()
    ensures ApproxMinutesAsWritten(10.0, Mins) == 0
    ensures ApproxMinutesAsWritten(2.0, Hrs) == 0
    ensures ApproxMinutes(10.0, Mins) == 10
    ensures ApproxMinutes(2.0, Hrs) == 120
  {
  }

  /**
   * With the correction, a qualified duration ("about 10 mins") converts
   * exactly as the same duration without the qualifier ("10 mins"); as
   * written, the two agree only for the unit words "hours", "hour",
   * "minutes" and "minute".
   */
  lemma ApproxAgreesWithPlain(v: NonNegReal, u: Unit, phrase: string)
    ensures IsMinuteUnit(u) ==> MatchMinutes(ApproxMatch(v, u, phrase)) == MatchMinutes(MinutesMatch(v, u, phrase))
    ensures IsHourUnit(u) ==> MatchMinutes(ApproxMatch(v, u, phrase)) == MatchMinutes(HoursMatch(v, u, None, phrase))
    ensures SaysMinute(u) ==> ApproxMinutesAsWritten(v, u) == MatchMinutes(MinutesMatch(v, u, phrase))
    ensures SaysHour(u) ==> ApproxMinutesAsWritten(v, u) == MatchMinutes(HoursMatch(v, u, None, phrase))
  {
    assert v * 60.0 + 0 as real == v * 60.0;
  }

  /** `(time_minutes, time_text)`; both absent when no pattern matched. */
  datatype Extraction = Extraction(minutes: Option<int>, phrase: Option<string>)

  /** The first match of the first pattern, from position `k` of the pattern list, that matches at all. */
  function FirstMatch(rx: Regex, text: string, k: nat): Option<TimeMatch>
    decreases |TimePatterns| - k
  {
    if k >= |TimePatterns| then None
    else
      var ms := rx.times(TimePatterns[k], text);
      if ms != [] then Some(ms[0]) else FirstMatch(rx, text, k + 1)
  }

  /** `extract_time_from_text`, on the lower-cased, stripped text. */
  function ExtractTime(rx: Regex, text: string): Extraction
  {
    var m := FirstMatch(rx, Strip(Lower(text)), 0);
    if m.None? then Extraction(None, None)
    else Extraction(Some(MatchMinutes(m.value)), Some(m.value.phrase))
  }

  method ExtractTimeFromText(rx: Regex, text: string) returns (e: Extraction)
    ensures e == ExtractTime(rx, text)
  {
    var lowered := Strip(Lower(text));
    var k := 0;
    while k < |TimePatterns|
      invariant 0 <= k <= |TimePatterns|
      invariant FirstMatch(rx, lowered, 0) == FirstMatch(rx, lowered, k)
    {
      var ms := rx.times(TimePatterns[k], lowered);
      if ms != [] {
        var m := ms[0];
        return Extraction(Some(MatchMinutes(m)), Some(m.phrase));
      }
      k := k + 1;
    }
    return Extraction(None, None);
  }

  lemma {:induction false} FirstMatchIsFirst(rx: Regex, text: string, k: nat)
    ensures FirstMatch(rx, text, k).None? <==> forall j :: k <= j < |TimePatterns| ==> rx.times(TimePatterns[j], text) == []
    ensures FirstMatch(rx, text, k).Some? ==>
      exists j :: k <= j < |TimePatterns| && rx.times(TimePatterns[j], text) != []
        && FirstMatch(rx, text, k) == Some(rx.times(TimePatterns[j], text)[0])
        && forall i :: k <= i < j ==> rx.times(TimePatterns[i], text) == []
    decreases |TimePatterns| - k
  {
    if k < |TimePatterns| && rx.times(TimePatterns[k], text) == [] {
      FirstMatchIsFirst(rx, text, k + 1);
    }
  }

  /**
   * The first pattern, in pattern order, that matches anywhere wins: nothing
   * is found exactly when no pattern matches, and otherwise the result is
   * the first match of the first matching pattern and its whole phrase.
   */
  lemma ExtractTimeFirstPatternWins(rx: Regex, text: string)
    ensures var t := Strip(Lower(text));
      var e := ExtractTime(rx, text);
      (e.minutes.None? <==> forall j :: 0 <= j < |TimePatterns| ==> rx.times(TimePatterns[j], t) == [])
      && (e.minutes.None? <==> e.phrase.None?)
      && (e.minutes.Some? ==>
            exists j :: 0 <= j < |TimePatterns| && rx.times(TimePatterns[j], t) != []
              && (forall i :: 0 <= i < j ==> rx.times(TimePatterns[i], t) == [])
              && e.minutes == Some(MatchMinutes(rx.times(TimePatterns[j], t)[0]))
              && e.phrase == Some(rx.times(TimePatterns[j], t)[0].phrase)
              && e.minutes.value >= 0)
  {
    FirstMatchIsFirst(rx, Strip(Lower(text)), 0);
  }

  /** Total number of matches of the first `k` time patterns. */
  function TimeCount(rx: Regex, text: string, k: nat): nat
    requires k <= |TimePatterns|
  {
    if k == 0 then 0 else TimeCount(rx, text, k - 1) + |rx.times(TimePatterns[k - 1], text)|
  }

  /** Some conjunction among the first `k` matches the text. */
  predicate ConjunctionIn(rx: Regex, text: string, k: nat)
    requires k <= |Conjunctions|
  {
    exists j :: 0 <= j < k && rx.splits(Conjunctions[j], text) != []
  }

  /** Several durations, or one duration and a conjunction, in the lower-cased text. */
  predicate HasMultipleTimes(rx: Regex, text: string)
  {
    var lowered := Lower(text);
    var count := TimeCount(rx, lowered, |TimePatterns|);
    count > 1 || (count >= 1 && ConjunctionIn(rx, lowered, |Conjunctions|))
  }

  /** `has_multiple_time_instructions` */
  method HasMultipleTimeInstructions(rx: Regex, text: string) returns (b: bool)
    ensures b == HasMultipleTimes(rx, text)
  {
    var lowered := Lower(text);
    var count := 0;
    var k := 0;
    while k < |TimePatterns|
      invariant 0 <= k <= |TimePatterns|
      invariant count == TimeCount(rx, lowered, k)
    {
      count := count + |rx.times(TimePatterns[k], lowered)|;
      k := k + 1;
    }
    var found := false;
    var j := 0;
    while j < |Conjunctions| && !found
      invariant 0 <= j <= |Conjunctions|
      invariant found <==> ConjunctionIn(rx, lowered, j)
    {
      if rx.splits(Conjunctions[j], lowered) != [] {
        found := true;
      }
      j := j + 1;
    }
    if found {
      assert ConjunctionIn(rx, lowered, |Conjunctions|) by {
        var w :| 0 <= w < j && rx.splits(Conjunctions[w], lowered) != [];
      }
    }
    b := count > 1 || (count >= 1 && found);
  }

  lemma {:induction false} TimeCountZero(rx: Regex, text: string, k: nat)
    requires k <= |TimePatterns|
    ensures TimeCount(rx, text, k) == 0 <==> forall j :: 0 <= j < k ==> rx.times(TimePatterns[j], text) == []
  {
    if k > 0 {
      TimeCountZero(rx, text, k - 1);
    }
  }

  /**
   * The decision rule: a step with no duration is never split; one with a
   * single duration is split only when a conjunction occurs; two durations,
   * from any patterns, always qualify.
   */
  lemma MultipleTimesRule(rx: Regex, text: string)
    ensures var lowered := Lower(text);
      ((forall j :: 0 <= j < |TimePatterns| ==> rx.times(TimePatterns[j], lowered) == []) ==> !HasMultipleTimes(rx, text))
      && (TimeCount(rx, lowered, |TimePatterns|) == 1 ==> (HasMultipleTimes(rx, text) <==> ConjunctionIn(rx, lowered, |Conjunctions|)))
      && (TimeCount(rx, lowered, |TimePatterns|) >= 2 ==> HasMultipleTimes(rx, text))
  {
    TimeCountZero(rx, Lower(text), |TimePatterns|);
  }

  /** One instruction with its duration (the `SplitStep` record). */
  datatype SplitStep = SplitStep(instruction: string, timeMinutes: Option<int>, timeText: Option<string>)

  /**
   * The text of `text[pos..]` cut at `spans` (what `re.split` leaves between
   * matches); a span that does not lie after the previous one is ignored.
   */
  function Pieces(text: string, spans: seq<Span>, pos: nat): (r: seq<string>)
    requires pos <= |text|
    ensures |r| >= 1
    decreases |spans|
  {
    if spans == [] then [text[pos..]]
    else if pos <= spans[0].start <= spans[0].end <= |text| then
      [text[pos..spans[0].start]] + Pieces(text, spans[1..], spans[0].end)
    else Pieces(text, spans[1..], pos)
  }

  /** The pieces stripped of surrounding whitespace, dropping those left empty. */
  function NonBlankParts(pieces: seq<string>): (r: seq<string>)
    ensures |r| <= |pieces|
    ensures forall i :: 0 <= i < |r| ==> IsStripped(r[i])
  {
    if pieces == [] then []
    else
      var init := NonBlankParts(pieces[..|pieces| - 1]);
      var p := Strip(pieces[|pieces| - 1]);
      if p != [] then init + [p] else init
  }

  /** The parts cut by the first conjunction, from position `k` of the list, that occurs (ignoring case). */
  function ConjunctionParts(rx: Regex, text: string, k: nat): seq<string>
    decreases |Conjunctions| - k
  {
    if k >= |Conjunctions| then []
    else
      var spans := rx.splits(Conjunctions[k], Lower(text));
      if spans != [] then NonBlankParts(Pieces(text, spans, 0)) else ConjunctionParts(rx, text, k + 1)
  }

  /** The cascade: conjunctions; if that gives nothing, sentences; if at most one part, commas. */
  function CandidateParts(rx: Regex, text: string): seq<string>
  {
    var byConjunction := ConjunctionParts(rx, text, 0);
    var bySentence := if byConjunction == [] then NonBlankParts(Pieces(text, rx.splits(Punctuation, text), 0))
      else byConjunction;
    if |bySentence| <= 1 then NonBlankParts(Pieces(text, rx.splits(CommaBeforeFor, text), 0)) else bySentence
  }

  /** Each run of whitespace becomes one space. */
  function CollapseSpaces(s: string): (r: string)
    ensures |r| <= |s|
    ensures r == [] <==> s == []
    ensures r != [] ==> (IsSpace(r[0]) <==> IsSpace(s[0]))
    ensures r != [] ==> (IsSpace(r[|r| - 1]) <==> IsSpace(s[|s| - 1]))
    ensures IsStripped(s) ==> IsStripped(r)
    decreases |s|
  {
    if s == [] then []
    else if IsSpace(s[0]) then
      var rest := TrimLeft(s[1..]);
      [' '] + CollapseSpaces(rest)
    else [s[0]] + CollapseSpaces(s[1..])
  }

  /** The leading words `_clean_instruction_text` removes, in the order the alternation tries them. */
  const LeadingWords: seq<string> := ["then", "and then", "next", "after that", "followed by"]

  /** `t` starts, ignoring case, with the word `w` followed by whitespace. */
  predicate StartsWithWord(t: string, w: string)
  {
    |w| < |t| && IsPrefix(w, Lower(t)) && IsSpace(t[|w|])
  }

  /**
   * Removes one leading sequencing word ("then", "and then", "next",
   * "after that", "followed by", in any case) and the whitespace after it,
   * trying the words from the `k`-th on.
   */
  function DropLeadingWord(t: string, k: nat): (r: string)
    ensures |r| <= |t|
    ensures IsStripped(t) ==> IsStripped(r)
    decreases |LeadingWords| - k
  {
    if k >= |LeadingWords| then t
    else if StartsWithWord(t, LeadingWords[k]) then
      var rest := t[|LeadingWords[k]|..];
      assert IsStripped(t) ==> rest[|rest| - 1] == t[|t| - 1];
      TrimLeftStripped(rest);
      TrimLeft(rest)
    else DropLeadingWord(t, k + 1)
  }

  /** A separator character `,` or `;`. */
  predicate IsSeparator(c: char)
  {
    c == ',' || c == ';'
  }

  /** A comma or semicolon before the final period (spaces allowed around it) gives way to the period alone. */
  function FixSeparatorBeforePeriod(t: string): (r: string)
    ensures t != [] ==> r != []
  {
    var u := TrimRight(t);
    if u != [] && u[|u| - 1] == '.' then
      var v := TrimRight(u[..|u| - 1]);
      if v != [] && IsSeparator(v[|v| - 1]) then v[..|v| - 1] + "." else t
    else t
  }

  /** A trailing comma or semicolon, with any spaces after it, becomes a period. */
  function FixTrailingSeparator(t: string): (r: string)
    ensures t != [] ==> r != []
  {
    var u := TrimRight(t);
    if u != [] && IsSeparator(u[|u| - 1]) then u[..|u| - 1] + "." else t
  }

  /** Upper-cases a lower-case first letter. */
  function Capitalize(t: string): (r: string)
    ensures |r| == |t|
    ensures r != [] ==> !IsLowerChar(r[0])
    ensures forall i :: 0 < i < |t| ==> r[i] == t[i]
  {
    if t != [] && IsLowerChar(t[0]) then [UpperChar(t[0])] + t[1..] else t
  }

  predicate IsEndPunctuation(c: char)
  {
    c == '.' || c == '!' || c == '?'
  }

  /** Appends a period unless the text already ends in `.`, `!` or `?`. */
  function EnsurePeriod(t: string): (r: string)
    ensures |r| >= |t|
    ensures t == [] ==> r == []
    ensures t != [] ==> r[0] == t[0] && IsEndPunctuation(r[|r| - 1])
  {
    if t != [] && !IsEndPunctuation(t[|t| - 1]) then t + "." else t
  }

  /** The shape every cleaned instruction has. */
  predicate IsCleanInstruction(s: string)
  {
    s != [] && !IsLowerChar(s[0]) && IsEndPunctuation(s[|s| - 1])
  }

  /**
   * `_clean_instruction_text` (its phrase argument is not used). The result
   * is empty only for blank input; otherwise it does not start with a
   * lower-case letter and it ends in `.`, `!` or `?`.
   */
  function CleanInstruction(text: string): (r: string)
    ensures r == [] <==> AllSpace(text)
    ensures r != [] ==> IsCleanInstruction(r)
  {
    var collapsed := CollapseSpaces(Strip(text));
    var dropped := DropLeadingWord(collapsed, 0);
    var fixed := FixTrailingSeparator(FixSeparatorBeforePeriod(dropped));
    EnsurePeriod(Capitalize(fixed))
  }

  /** The whole (stripped) step as a single instruction with its extraction. */
  function Whole(rx: Regex, text: string): SplitStep
  {
    var e := ExtractTime(rx, text);
    SplitStep(text, e.minutes, e.phrase)
  }

  /** The length test a cleaned part must pass to be kept (`len(instruction.strip()) > 3`). */
  predicate LongEnough(s: string)
  {
    |Strip(s)| > 3
  }

  /**
   * One candidate part as the final loop of `split_step` treats it: stripped,
   * skipped when blank, cleaned, given its own duration, and kept only when
   * the cleaned text is long enough.
   */
  function PartStep(rx: Regex, raw: string): (r: Option<SplitStep>)
    ensures r.Some? ==> LongEnough(r.value.instruction) && IsCleanInstruction(r.value.instruction)
    ensures r.Some? ==> var e := ExtractTime(rx, Strip(raw)); r.value.timeMinutes == e.minutes && r.value.timeText == e.phrase
  {
    var part := Strip(raw);
    if part == [] then None
    else
      var e := ExtractTime(rx, part);
      var instruction := CleanInstruction(part);
      if LongEnough(instruction) then Some(SplitStep(instruction, e.minutes, e.phrase)) else None
  }

  function PartSteps(rx: Regex, parts: seq<string>): (r: seq<Option<SplitStep>>)
    ensures |r| == |parts|
  {
    Map((s: string) => PartStep(rx, s), parts)
  }

  /** What `split_step` returns. */
  function SplitStepOf(rx: Regex, step: string): seq<SplitStep>
  {
    var text := Strip(step);
    if !HasMultipleTimes(rx, text) then [Whole(rx, text)]
    else
      var parts := CandidateParts(rx, text);
      if |parts| <= 1 then [Whole(rx, text)]
      else
        var kept := Somes(PartSteps(rx, parts));
        if kept == [] then [Whole(rx, text)] else kept
  }

  /** The conjunction loop of `split_step`: cut at the first conjunction that occurs. */
  method SplitAtConjunction(rx: Regex, text: string) returns (parts: seq<string>)
    ensures parts == ConjunctionParts(rx, text, 0)
  {
    parts := [];
    var k := 0;
    while k < |Conjunctions|
      invariant 0 <= k <= |Conjunctions|
      invariant parts == [] && ConjunctionParts(rx, text, 0) == ConjunctionParts(rx, text, k)
    {
      var spans := rx.splits(Conjunctions[k], Lower(text));
      if spans != [] {
        var pieces := Pieces(text, spans, 0);
        var j := 0;
        while j < |pieces|
          invariant 0 <= j <= |pieces|
          invariant parts == NonBlankParts(pieces[..j])
        {
          assert pieces[..j + 1][..j] == pieces[..j];
          var part := Strip(pieces[j]);
          if part != [] {
            parts := parts + [part];
          }
          j := j + 1;
        }
        assert pieces[..j] == pieces;
        return;
      }
      k := k + 1;
    }
  }

  /** The final loop of `split_step`: the kept instructions, in part order. */
  method InstructionsFromParts(rx: Regex, parts: seq<string>) returns (kept: seq<SplitStep>)
    ensures kept == Somes(PartSteps(rx, parts))
  {
    ghost var os := PartSteps(rx, parts);
    kept := [];
    var i := 0;
    while i < |parts|
      invariant 0 <= i <= |parts|
      invariant kept == Somes(os[..i])
    {
      SomesSnoc(os, i);
      var part := Strip(parts[i]);
      if part != [] {
        var e := ExtractTimeFromText(rx, part);
        var instruction := CleanInstruction(part);
        if LongEnough(instruction) {
          kept := kept + [SplitStep(instruction, e.minutes, e.phrase)];
        }
      }
      i := i + 1;
    }
    assert os[..i] == os;
  }

  /** `split_step` */
  method SplitStepMethod(rx: Regex, step: string) returns (result: seq<SplitStep>)
    ensures result == SplitStepOf(rx, step)
  {
    var text := Strip(step);
    var multiple := HasMultipleTimeInstructions(rx, text);
    if !multiple {
      var e := ExtractTimeFromText(rx, text);
      return [SplitStep(text, e.minutes, e.phrase)];
    }
    var parts := SplitAtConjunction(rx, text);
    if parts == [] {
      parts := NonBlankParts(Pieces(text, rx.splits(Punctuation, text), 0));
    }
    if |parts| <= 1 {
      parts := NonBlankParts(Pieces(text, rx.splits(CommaBeforeFor, text), 0));
    }
    if |parts| <= 1 {
      var e := ExtractTimeFromText(rx, text);
      return [SplitStep(text, e.minutes, e.phrase)];
    }
    var kept := InstructionsFromParts(rx, parts);
    if kept == [] {
      var e := ExtractTimeFromText(rx, text);
      return [SplitStep(text, e.minutes, e.phrase)];
    }
    return kept;
  }

  /**
   * `split_step` never returns nothing, and without a multiple-instruction
   * signal it returns the stripped step whole.
   */
  lemma SplitStepWhole(rx: Regex, step: string)
    ensures var r := SplitStepOf(rx, step);
      |r| >= 1 && (!HasMultipleTimes(rx, Strip(step)) ==> r == [Whole(rx, Strip(step))])
  {
  }

  /** A kept piece: cleaned, and more than three characters long once stripped. */
  predicate CleanPiece(s: SplitStep)
  {
    LongEnough(s.instruction) && IsCleanInstruction(s.instruction)
  }

  predicate AllClean(ss: seq<SplitStep>)
  {
    forall i :: 0 <= i < |ss| ==> CleanPiece(ss[i])
  }

  /** Every part the final loop keeps is clean. */
  lemma KeptPartsClean(rx: Regex, parts: seq<string>)
    ensures AllClean(Somes(PartSteps(rx, parts)))
  {
    SomesOfMap((s: string) => PartStep(rx, s), CleanPiece, parts);
  }

  /**
   * Unless `split_step` falls back to the whole step, every instruction it
   * returns was cleaned and is more than three characters long.
   */
  lemma SplitStepClean(rx: Regex, step: string)
    ensures var r := SplitStepOf(rx, step);
      r == [Whole(rx, Strip(step))] || AllClean(r)
  {
    KeptPartsClean(rx, CandidateParts(rx, Strip(step)));
  }

  /** Each piece's duration, or 5 minutes when none was found. */
  function TimeOrDefault(s: SplitStep): int
  {
    if s.timeMinutes.Some? then s.timeMinutes.value else 5
  }

  /** Every step's pieces, step by step. */
  function Blocks(rx: Regex, steps: seq<string>): seq<seq<SplitStep>>
  {
    seq(|steps|, i requires 0 <= i < |steps| => SplitStepOf(rx, steps[i]))
  }

  /** The instructions and durations of all blocks, one after another. */
  function Flatten(blocks: seq<seq<SplitStep>>): (r: (seq<string>, seq<int>))
    ensures |r.0| == |r.1|
  {
    if blocks == [] then ([], [])
    else
      var init := Flatten(blocks[..|blocks| - 1]);
      var block := blocks[|blocks| - 1];
      (init.0 + Instructions(block), init.1 + Durations(block))
  }

  lemma FlattenSnoc(blocks: seq<seq<SplitStep>>, i: nat)
    requires i < |blocks|
    ensures Flatten(blocks[..i + 1])
      == (Flatten(blocks[..i]).0 + Instructions(blocks[i]), Flatten(blocks[..i]).1 + Durations(blocks[i]))
  {
    assert blocks[..i + 1][..i] == blocks[..i];
  }

  /** The instruction of each piece, in order. */
  function Instructions(block: seq<SplitStep>): seq<string>
  {
    seq(|block|, i requires 0 <= i < |block| => block[i].instruction)
  }

  /** The duration of each piece, in order, with the default where none was found. */
  function Durations(block: seq<SplitStep>): seq<int>
  {
    seq(|block|, i requires 0 <= i < |block| => TimeOrDefault(block[i]))
  }

  /** What `split_recipe_steps` returns: the new step texts and their durations. */
  function SplitRecipe(rx: Regex, steps: seq<string>): (seq<string>, seq<int>)
  {
    Flatten(Blocks(rx, steps))
  }

  /** `split_recipe_steps` */
  method SplitRecipeSteps(rx: Regex, steps: seq<string>) returns (newSteps: seq<string>, newTimes: seq<int>)
    ensures (newSteps, newTimes) == SplitRecipe(rx, steps)
  {
    ghost var blocks := Blocks(rx, steps);
    newSteps, newTimes := [], [];
    var i := 0;
    while i < |steps|
      invariant 0 <= i <= |steps|
      invariant (newSteps, newTimes) == Flatten(blocks[..i])
    {
      FlattenSnoc(blocks, i);
      var block := SplitStepMethod(rx, steps[i]);
      assert block == blocks[i];
      newSteps, newTimes := AppendBlock(newSteps, newTimes, block);
      i := i + 1;
    }
    assert blocks[..i] == blocks;
  }

  /** The inner loop of `split_recipe_steps`: one step's pieces appended to both lists. */
  method AppendBlock(steps: seq<string>, times: seq<int>, block: seq<SplitStep>)
    returns (newSteps: seq<string>, newTimes: seq<int>)
    ensures newSteps == steps + Instructions(block)
    ensures newTimes == times + Durations(block)
  {
    newSteps, newTimes := steps, times;
    var j := 0;
    while j < |block|
      invariant 0 <= j <= |block|
      invariant newSteps == steps + Instructions(block[..j])
      invariant newTimes == times + Durations(block[..j])
    {
      assert Instructions(block[..j + 1]) == Instructions(block[..j]) + [block[j].instruction];
      assert Durations(block[..j + 1]) == Durations(block[..j]) + [TimeOrDefault(block[j])];
      newSteps := newSteps + [block[j].instruction];
      newTimes := newTimes + [TimeOrDefault(block[j])];
      j := j + 1;
    }
    assert block[..j] == block;
  }

  lemma {:induction false} FlattenAppend(a: seq<seq<SplitStep>>, b: seq<seq<SplitStep>>)
    ensures Flatten(a + b).0 == Flatten(a).0 + Flatten(b).0
    ensures Flatten(a + b).1 == Flatten(a).1 + Flatten(b).1
    decreases |b|
  {
    if b == [] {
      assert a + b == a;
    } else {
      var b' := b[..|b| - 1];
      assert (a + b)[..|a + b| - 1] == a + b';
      assert (a + b)[|a + b| - 1] == b[|b| - 1];
      FlattenAppend(a, b');
    }
  }

  lemma {:induction false} FlattenLength(blocks: seq<seq<SplitStep>>)
    requires forall i :: 0 <= i < |blocks| ==> |blocks[i]| >= 1
    ensures |Flatten(blocks).0| >= |blocks|
  {
    if blocks != [] {
      FlattenLength(blocks[..|blocks| - 1]);
    }
  }

  /**
   * Splitting a recipe works step by step, in order: the lists for two runs
   * of steps are the lists for the first followed by those for the second.
   */
  lemma SplitRecipeAppend(rx: Regex, a: seq<string>, b: seq<string>)
    ensures SplitRecipe(rx, a + b).0 == SplitRecipe(rx, a).0 + SplitRecipe(rx, b).0
    ensures SplitRecipe(rx, a + b).1 == SplitRecipe(rx, a).1 + SplitRecipe(rx, b).1
  {
    var ab := Blocks(rx, a + b);
    assert ab == Blocks(rx, a) + Blocks(rx, b) by {
      forall i | 0 <= i < |a + b| ensures ab[i] == (Blocks(rx, a) + Blocks(rx, b))[i] {
        if i < |a| {
          assert (a + b)[i] == a[i];
        } else {
          assert (a + b)[i] == b[i - |a|];
        }
      }
    }
    FlattenAppend(Blocks(rx, a), Blocks(rx, b));
  }

  /** The two lists are parallel, with at least one entry per original step. */
  lemma SplitRecipeLength(rx: Regex, steps: seq<string>)
    ensures |SplitRecipe(rx, steps).0| == |SplitRecipe(rx, steps).1| >= |steps|
  {
    var blocks := Blocks(rx, steps);
    forall i | 0 <= i < |blocks| ensures |blocks[i]| >= 1 {
      SplitStepWhole(rx, steps[i]);
    }
    FlattenLength(blocks);
  }

  /** A step the splitter leaves whole keeps its text (stripped) and its duration, or 5. */
  lemma SplitRecipeSingle(rx: Regex, step: string)
    requires !HasMultipleTimes(rx, Strip(step))
    ensures SplitRecipe(rx, [step]) == ([Strip(step)], [TimeOrDefault(Whole(rx, Strip(step)))])
  {
    var w := Whole(rx, Strip(step));
    var blocks := Blocks(rx, [step]);
    assert blocks == [[w]];
    assert blocks[..0] == [];
    assert Flatten(blocks[..0]) == ([], []);
    assert Flatten(blocks) == ([] + Instructions([w]), [] + Durations([w]));
    assert Instructions([w]) == [Strip(step)];
    assert Durations([w]) == [TimeOrDefault(w)];
    assert [] + [Strip(step)] == [Strip(step)] && [] + [TimeOrDefault(w)] == [TimeOrDefault(w)];
    assert SplitRecipe(rx, [step]) == Flatten(blocks);
  }
}
