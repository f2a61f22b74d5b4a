/**
 * The step-time parser: finds every duration written in a recipe step ("10
 * minutes", "10-15 minutes", "1/2 hour", "1½ minutes", "about 20 mins"),
 * converts each to whole minutes, and turns a step into one parsed step per
 * duration found, or a single predicted step when there is none; a recipe's
 * steps expand into parallel text, duration and confidence lists.
 *
 * Regular-expression matching is not modelled: a `Matcher` supplies, for
 * each pattern, its matches in a text in the order `finditer` yields them,
 * each with its whole phrase, its position and what its groups captured
 * (unit words lower-cased). Everything computed from those matches is.
 */
module StepTimeParser {
  import opened Basics
  import opened Text
  import opened Sorting
  import Splitter = StepSplitter

  type NonNegReal = Splitter.NonNegReal

  /** The time patterns, in the order they are tried. */
  datatype Pattern = Standard | Range | Fractional | About | UntilDone

  const Patterns: seq<Pattern> := [Standard, Range, Fractional, About, UntilDone]

  /** A captured number: a decimal, `n/d`, or an optional whole part followed by ½, ¼ or ¾. */
  datatype ValueText =
    | Decimal(value: NonNegReal)
    | Ratio(numerator: nat, denominator: nat)
    | Half(whole: Option<nat>)
    | Quarter(whole: Option<nat>)
    | ThreeQuarters(whole: Option<nat>)

  /**
   * What a match's groups captured: nothing (the "until done" pattern), a
   * value and a unit (standard, fractional and approximate patterns), or
   * both ends of a range and a unit.
   */
  datatype Groups =
    | NoGroups
    | ValueUnit(value: ValueText, unit: Splitter.Unit)
    | RangeUnit(low: NonNegReal, high: NonNegReal, unit: Splitter.Unit)

  /** A match: its phrase `group(0)`, its span `[start, end)` and its groups. */
  datatype PatternMatch = PatternMatch(phrase: string, start: nat, end: nat, groups: Groups)

  datatype Matcher = Matcher(finds: (Pattern, string) -> seq<PatternMatch>)

  /** `x * unit_conversions[unit]`: seconds count 1/60, minutes 1 and hours 60. */
  function InMinutes(x: NonNegReal, u: Splitter.Unit): NonNegReal
  {
    if Splitter.IsSecondUnit(u) then x / 60.0
    else if Splitter.IsMinuteUnit(u) then x
    else x * 60.0
  }

  /** Python's `round` to an integer: the nearest one, and the even one of two equally near. */
  function RoundHalfEven(x: NonNegReal): (n: nat)
    ensures x - 0.5 <= n as real <= x + 0.5
    ensures (n as real - x == 0.5 || x - n as real == 0.5) ==> n % 2 == 0
  {
    var f := x.Floor;
    var d := x - f as real;
    if d < 0.5 then f
    else if d > 0.5 then f + 1
    else if f % 2 == 0 then f
    else f + 1
  }

  /** There is only one such integer: `RoundHalfEven` is the rounding it promises to be. */
  lemma RoundIsNearest(x: NonNegReal, n: int)
    requires x - 0.5 <= n as real <= x + 0.5
    requires (n as real - x == 0.5 || x - n as real == 0.5) ==> n % 2 == 0
    ensures n == RoundHalfEven(x)
  {
  }

  /** The whole number written before a fraction sign, or 0 when there is none. */
  function WholePart(w: Option<nat>): nat
  {
    if w.Some? then w.value else 0
  }

  /**
   * `_parse_time_value`, with a zero denominator treated like any other
   * number that will not parse: no value.
   */
  function ParseTimeValue(v: ValueText): (r: Option<NonNegReal>)
    ensures r.None? <==> v.Ratio? && v.denominator == 0
    ensures v.Decimal? ==> r == Some(v.value)
    ensures v.Ratio? && r.Some? ==> r.value * v.denominator as real == v.numerator as real
    ensures (v.Half? || v.Quarter? || v.ThreeQuarters?) ==>
      r.Some? && WholePart(v.whole) as real < r.value < WholePart(v.whole) as real + 1.0
  {
    match v
    case Decimal(x) => Some(x)
    case Ratio(n, d) => if d == 0 then None else Some(n as real / d as real)
    case Half(w) => Some(WholePart(w) as real + 0.5)
    case Quarter(w) => Some(WholePart(w) as real + 0.25)
    case ThreeQuarters(w) => Some(WholePart(w) as real + 0.75)
  }

  /** A number, or the `ZeroDivisionError` that escapes the parser's handler. */
  datatype Evaluated = Number(value: NonNegReal) | DivisionByZero

  /** `_parse_time_value` as written: `n/0` raises, and only `ValueError` and `IndexError` are caught. */
  function ParseTimeValueAsWritten(v: ValueText): (r: Evaluated)
    ensures r.DivisionByZero? <==> ParseTimeValue(v).None?
    ensures r.Number? ==> ParseTimeValue(v) == Some(r.value)
  {
    if v.Ratio? && v.denominator == 0 then DivisionByZero
    else
      var p := ParseTimeValue(v);
      Number(p.value)
  }

  /** A step reading "cook for 1/0 hour" makes the parser raise instead of skipping the phrase. */
  lemma RatioByZeroRaises()
    ensures ParseTimeValueAsWritten(Ratio(1, 0)) == DivisionByZero
    ensures ParseTimeMatch(PatternMatch("1/0 hour", 9, 17, ValueUnit(Ratio(1, 0), Splitter.Hour))) == None
  {
  }

  /** One parsed duration: `{'phrase', 'minutes', 'start_pos', 'end_pos'}`. */
  datatype TimeInfo = TimeInfo(phrase: string, minutes: int, start: nat, end: nat)

  /** Minutes rounded half to even, and never less than one. */
  function WholeMinutes(x: NonNegReal): (m: int)
    ensures m >= 1
    ensures x >= 0.5 ==> x - 0.5 <= m as real <= x + 0.5
  {
    Max(1, RoundHalfEven(x))
  }

  /**
   * `_parse_time_match`: a range counts as its average, anything else as its
   * value; nothing without groups, or whose value does not parse.
   */
  function ParseTimeMatch(m: PatternMatch): (r: Option<TimeInfo>)
    ensures r.None? <==> m.groups.NoGroups? || (m.groups.ValueUnit? && ParseTimeValue(m.groups.value).None?)
    ensures r.Some? ==>
      r.value.phrase == m.phrase && r.value.start == m.start && r.value.end == m.end && r.value.minutes >= 1
    ensures r.Some? && m.groups.RangeUnit? ==>
      r.value.minutes == WholeMinutes(InMinutes((m.groups.low + m.groups.high) / 2.0, m.groups.unit))
    ensures r.Some? && m.groups.ValueUnit? ==>
      r.value.minutes == WholeMinutes(InMinutes(ParseTimeValue(m.groups.value).value, m.groups.unit))
  {
    match m.groups
    case NoGroups => None
    case RangeUnit(lo, hi, u) =>
      Some(TimeInfo(m.phrase, WholeMinutes(InMinutes((lo + hi) / 2.0, u)), m.start, m.end))
    case ValueUnit(v, u) =>
      var t := ParseTimeValue(v);
      if t.None? then None else Some(TimeInfo(m.phrase, WholeMinutes(InMinutes(t.value, u)), m.start, m.end))
  }

  /** Worked ranges: the average rounds to even, so "10-15 minutes" is 12. */
  lemma RangeExamples()
    ensures ParseTimeMatch(PatternMatch("10-15 minutes", 0, 13, RangeUnit(10.0, 15.0, Splitter.Minutes))).value.minutes == 12
    ensures ParseTimeMatch(PatternMatch("1-2 hours", 0, 9, RangeUnit(1.0, 2.0, Splitter.Hours))).value.minutes == 90
  {
  }

  /** Worked fractions: "1/2 hour" is exact, and "1½ minutes" rounds to even. */
  lemma FractionExamples()
    ensures ParseTimeMatch(PatternMatch("1/2 hour", 0, 8, ValueUnit(Ratio(1, 2), Splitter.Hour))).value.minutes == 30
    ensures ParseTimeMatch(PatternMatch("1½ minutes", 0, 10, ValueUnit(Half(Some(1)), Splitter.Minutes))).value.minutes == 2
  {
  }

  /** Worked short durations: half a minute and less count one minute; an "until done" match counts none. */
  lemma ShortExamples()
    ensures ParseTimeMatch(PatternMatch("2.5 minutes", 0, 11, ValueUnit(Decimal(2.5), Splitter.Minutes))).value.minutes == 2
    ensures ParseTimeMatch(PatternMatch("30 seconds", 0, 10, ValueUnit(Decimal(30.0), Splitter.Seconds))).value.minutes == 1
    ensures ParseTimeMatch(PatternMatch("90 seconds", 0, 10, ValueUnit(Decimal(90.0), Splitter.Seconds))).value.minutes == 2
    ensures ParseTimeMatch(PatternMatch("cook until done", 0, 15, NoGroups)).None?
  {
  }

  /** Every match of one pattern, parsed. */
  function ParseAll(ms: seq<PatternMatch>): seq<Option<TimeInfo>>
  {
    seq(|ms|, i requires 0 <= i < |ms| => ParseTimeMatch(ms[i]))
  }

  /** The durations the first `k` patterns yield, pattern by pattern, each in match order. */
  function RawTimes(mt: Matcher, text: string, k: nat): seq<TimeInfo>
    requires k <= |Patterns|
  {
    if k == 0 then [] else RawTimes(mt, text, k - 1) + Somes(ParseAll(mt.finds(Patterns[k - 1], text)))
  }

  function StartOf(t: TimeInfo): int { t.start }

  ghost predicate ByStart(ts: seq<TimeInfo>)
  {
    SortedBy(ts, StartOf, IntLt)
  }

  function PhrasesOf(ts: seq<TimeInfo>): set<string>
  {
    set i | 0 <= i < |ts| :: ts[i].phrase
  }

  /** Each phrase's first occurrence, in order: the `seen_phrases` filter. */
  function FirstOccurrences(ts: seq<TimeInfo>): seq<TimeInfo>
  {
    if ts == [] then []
    else
      var init := FirstOccurrences(ts[..|ts| - 1]);
      var last := ts[|ts| - 1];
      if last.phrase in PhrasesOf(init) then init else init + [last]
  }

  /** What `_extract_all_times` returns. */
  function AllTimes(mt: Matcher, text: string): seq<TimeInfo>
  {
    FirstOccurrences(SortBy(RawTimes(mt, text, |Patterns|), StartOf, IntLt))
  }

  /** The inner loop of `_extract_all_times`: one pattern's parsed matches appended. */
  method CollectTimes(ms: seq<PatternMatch>, extractions: seq<TimeInfo>) returns (r: seq<TimeInfo>)
    ensures r == extractions + Somes(ParseAll(ms))
  {
    ghost var os := ParseAll(ms);
    r := extractions;
    var j := 0;
    while j < |ms|
      invariant 0 <= j <= |ms|
      invariant r == extractions + Somes(os[..j])
    {
      SomesSnoc(os, j);
      var info := ParseTimeMatch(ms[j]);
      if info.Some? {
        r := r + [info.value];
      }
      j := j + 1;
    }
    assert os[..j] == os;
  }

  lemma PhrasesSnoc(ts: seq<TimeInfo>, t: TimeInfo)
    ensures PhrasesOf(ts + [t]) == PhrasesOf(ts) + {t.phrase}
  {
    var a := ts + [t];
    assert forall i :: 0 <= i < |ts| ==> a[i] == ts[i];
    assert a[|ts|] == t;
  }

  /** The de-duplicating loop of `_extract_all_times`, with its `seen_phrases` set. */
  method KeepFirstPhrases(ts: seq<TimeInfo>) returns (unique: seq<TimeInfo>)
    ensures unique == FirstOccurrences(ts)
  {
    var seen: set<string> := {};
    unique := [];
    var i := 0;
    while i < |ts|
      invariant 0 <= i <= |ts|
      invariant unique == FirstOccurrences(ts[..i])
      invariant seen == PhrasesOf(unique)
    {
      assert ts[..i + 1][..i] == ts[..i];
      if ts[i].phrase !in seen {
        PhrasesSnoc(unique, ts[i]);
        unique := unique + [ts[i]];
        seen := seen + {ts[i].phrase};
      }
      i := i + 1;
    }
    assert ts[..i] == ts;
  }

  /** `_extract_all_times` */
  method ExtractAllTimes(mt: Matcher, text: string) returns (unique: seq<TimeInfo>)
    ensures unique == AllTimes(mt, text)
  {
    var extractions: seq<TimeInfo> := [];
    var k := 0;
    while k < |Patterns|
      invariant 0 <= k <= |Patterns|
      invariant extractions == RawTimes(mt, text, k)
    {
      extractions := CollectTimes(mt.finds(Patterns[k], text), extractions);
      k := k + 1;
    }
    unique := KeepFirstPhrases(SortBy(extractions, StartOf, IntLt));
  }

  lemma {:induction false} FirstOccurrencesPhrases(ts: seq<TimeInfo>)
    ensures PhrasesOf(FirstOccurrences(ts)) == PhrasesOf(ts)
  {
    if ts != [] {
      var init := ts[..|ts| - 1];
      var last := ts[|ts| - 1];
      FirstOccurrencesPhrases(init);
      PhrasesSnoc(init, last);
      assert ts == init + [last];
      if last.phrase !in PhrasesOf(FirstOccurrences(init)) {
        PhrasesSnoc(FirstOccurrences(init), last);
      }
    }
  }

  /** No two elements carry the same phrase. */
  predicate DistinctPhrases(ts: seq<TimeInfo>)
  {
    forall i, j :: 0 <= i < j < |ts| ==> ts[i].phrase != ts[j].phrase
  }

  /** No phrase is kept twice. */
  lemma {:induction false} FirstOccurrencesDistinct(ts: seq<TimeInfo>)
    ensures DistinctPhrases(FirstOccurrences(ts))
  {
    if ts != [] {
      var init := FirstOccurrences(ts[..|ts| - 1]);
      FirstOccurrencesDistinct(ts[..|ts| - 1]);
      var last := ts[|ts| - 1];
      if last.phrase !in PhrasesOf(init) {
        var r := init + [last];
        forall i, j | 0 <= i < j < |r| ensures r[i].phrase != r[j].phrase {
          if j == |init| {
            assert r[i] == init[i];
            assert init[i].phrase in PhrasesOf(init);
          } else {
            assert r[i] == init[i] && r[j] == init[j];
          }
        }
      }
    }
  }

  /** `t` is `ts[j]`, and no element before it has its phrase. */
  predicate FirstWithPhrase(ts: seq<TimeInfo>, t: TimeInfo, j: int)
  {
    0 <= j < |ts| && ts[j] == t && forall k :: 0 <= k < j ==> ts[k].phrase != t.phrase
  }

  /** `t` occurs in `ts` before any other element with its phrase. */
  ghost predicate IsFirstWithPhrase(ts: seq<TimeInfo>, t: TimeInfo)
  {
    exists j :: FirstWithPhrase(ts, t, j)
  }

  /** Every element of `r` is the earliest element of `ts` carrying its phrase. */
  ghost predicate EarliestOf(ts: seq<TimeInfo>, r: seq<TimeInfo>)
  {
    forall i :: 0 <= i < |r| ==> IsFirstWithPhrase(ts, r[i])
  }

  /** Every kept element is the earliest one carrying its phrase. */
  lemma {:induction false} FirstOccurrencesEarliest(ts: seq<TimeInfo>)
    ensures EarliestOf(ts, FirstOccurrences(ts))
  {
    if ts != [] {
      var pre := ts[..|ts| - 1];
      var init := FirstOccurrences(pre);
      FirstOccurrencesEarliest(pre);
      var last := ts[|ts| - 1];
      var r := FirstOccurrences(ts);
      forall i | 0 <= i < |r| ensures IsFirstWithPhrase(ts, r[i]) {
        if i < |init| {
          assert r[i] == init[i];
          var j :| FirstWithPhrase(pre, init[i], j);
          assert FirstWithPhrase(ts, r[i], j);
        } else {
          assert r[i] == last && last.phrase !in PhrasesOf(init);
          FirstOccurrencesPhrases(pre);
          forall k | 0 <= k < |ts| - 1 ensures ts[k].phrase != last.phrase {
            assert pre[k] == ts[k];
            assert pre[k].phrase in PhrasesOf(pre);
          }
          assert FirstWithPhrase(ts, r[i], |ts| - 1);
        }
      }
    }
  }

  /** Keeping first occurrences keeps only elements of the input. */
  lemma {:induction false} FirstOccurrencesSubset(ts: seq<TimeInfo>)
    ensures forall t :: t in FirstOccurrences(ts) ==> t in ts
  {
    if ts != [] {
      FirstOccurrencesSubset(ts[..|ts| - 1]);
      assert forall t :: t in ts[..|ts| - 1] ==> t in ts;
    }
  }

  lemma {:induction false} ByStartMonotone(ts: seq<TimeInfo>)
    requires ByStart(ts)
    ensures forall i, j :: 0 <= i <= j < |ts| ==> ts[i].start <= ts[j].start
  {
    if ts != [] {
      var pre := ts[..|ts| - 1];
      assert ByStart(pre) by {
        forall i | 0 < i < |pre| ensures !IntLt(StartOf(pre[i]), StartOf(pre[i - 1])) {
          assert pre[i] == ts[i] && pre[i - 1] == ts[i - 1];
        }
      }
      ByStartMonotone(pre);
      forall i, j | 0 <= i <= j < |ts| ensures ts[i].start <= ts[j].start {
        if j < |ts| - 1 {
          assert ts[i] == pre[i] && ts[j] == pre[j];
        } else if i < j {
          assert !IntLt(StartOf(ts[j]), StartOf(ts[j - 1]));
          assert ts[i] == pre[i] && ts[j - 1] == pre[j - 1];
        }
      }
    }
  }

  /** Dropping repeated phrases keeps the list in position order. */
  lemma {:induction false} FirstOccurrencesByStart(ts: seq<TimeInfo>)
    requires ByStart(ts)
    ensures ByStart(FirstOccurrences(ts))
  {
    if ts != [] {
      var pre := ts[..|ts| - 1];
      var init := FirstOccurrences(pre);
      var last := ts[|ts| - 1];
      assert ByStart(pre) by {
        forall i | 0 < i < |pre| ensures !IntLt(StartOf(pre[i]), StartOf(pre[i - 1])) {
          assert pre[i] == ts[i] && pre[i - 1] == ts[i - 1];
        }
      }
      FirstOccurrencesByStart(pre);
      if last.phrase !in PhrasesOf(init) && init != [] {
        var r := init + [last];
        FirstOccurrencesSubset(pre);
        ByStartMonotone(ts);
        assert init[|init| - 1] in pre;
        var k :| 0 <= k < |pre| && pre[k] == init[|init| - 1];
        assert ts[k] == pre[k];
        forall i | 0 < i < |r| ensures !IntLt(StartOf(r[i]), StartOf(r[i - 1])) {
          if i < |init| {
            assert r[i] == init[i] && r[i - 1] == init[i - 1];
          } else {
            assert r[i - 1] == ts[k] && r[i] == ts[|ts| - 1];
          }
        }
      }
    }
  }

  /** Every match the first `k` patterns turn into a duration has at least one minute. */
  lemma {:induction false} RawTimesPositive(mt: Matcher, text: string, k: nat)
    requires k <= |Patterns|
    ensures forall t :: t in RawTimes(mt, text, k) ==> t.minutes >= 1
  {
    if k > 0 {
      RawTimesPositive(mt, text, k - 1);
      var os := ParseAll(mt.finds(Patterns[k - 1], text));
      var s := Somes(os);
      forall t | t in s ensures t.minutes >= 1 {
        var i :| 0 <= i < |s| && s[i] == t;
        assert Some(t) in os;
      }
    }
  }

  /** Every duration reported lasts at least a minute. */
  predicate PositiveMinutes(ts: seq<TimeInfo>)
  {
    forall i :: 0 <= i < |ts| ==> ts[i].minutes >= 1
  }

  lemma AllTimesPositive(mt: Matcher, text: string)
    ensures PositiveMinutes(AllTimes(mt, text))
  {
    var raw := RawTimes(mt, text, |Patterns|);
    var sorted := SortBy(raw, StartOf, IntLt);
    var r := AllTimes(mt, text);
    SortByPermutes(raw, StartOf, IntLt);
    RawTimesPositive(mt, text, |Patterns|);
    FirstOccurrencesSubset(sorted);
    forall i | 0 <= i < |r| ensures r[i].minutes >= 1 {
      assert r[i] in sorted;
      assert r[i] in multiset(raw);
    }
  }

  lemma SortingKeepsPhrases(raw: seq<TimeInfo>)
    ensures PhrasesOf(SortBy(raw, StartOf, IntLt)) == PhrasesOf(raw)
  {
    var sorted := SortBy(raw, StartOf, IntLt);
    SortByPermutes(raw, StartOf, IntLt);
    forall p | p in PhrasesOf(sorted) ensures p in PhrasesOf(raw) {
      var i :| 0 <= i < |sorted| && sorted[i].phrase == p;
      assert sorted[i] in multiset(raw);
    }
    forall p | p in PhrasesOf(raw) ensures p in PhrasesOf(sorted) {
      var i :| 0 <= i < |raw| && raw[i].phrase == p;
      assert raw[i] in multiset(sorted);
    }
  }

  /**
   * `_extract_all_times`: the durations in order of position, each phrase
   * once, every phrase any pattern parsed present, each reported element the
   * first (by position, then pattern order) carrying its phrase, and each at
   * least one minute.
   */
  lemma AllTimesProperties(mt: Matcher, text: string)
    ensures var raw := RawTimes(mt, text, |Patterns|);
      var sorted := SortBy(raw, StartOf, IntLt);
      var r := AllTimes(mt, text);
      ByStart(r)
      && DistinctPhrases(r)
      && PhrasesOf(r) == PhrasesOf(raw)
      && EarliestOf(sorted, r)
      && PositiveMinutes(r)
      && (r == [] <==> raw == [])
  {
    var raw := RawTimes(mt, text, |Patterns|);
    var sorted := SortBy(raw, StartOf, IntLt);
    IntOrdersAsymmetric();
    SortBySorted(raw, StartOf, IntLt);
    FirstOccurrencesByStart(sorted);
    FirstOccurrencesDistinct(sorted);
    FirstOccurrencesEarliest(sorted);
    FirstOccurrencesPhrases(sorted);
    SortingKeepsPhrases(raw);
    AllTimesPositive(mt, text);
    if raw != [] {
      assert raw[0].phrase in PhrasesOf(raw);
    }
  }

  /**
   * The "until done" pattern has no groups, so with a matcher that reports
   * its matches without groups it never contributes a duration.
   */
  lemma UntilPatternYieldsNothing(mt: Matcher, text: string)
    requires forall m :: m in mt.finds(UntilDone, text) ==> m.groups == NoGroups
    ensures RawTimes(mt, text, |Patterns|) == RawTimes(mt, text, |Patterns| - 1)
  {
    var ms := mt.finds(UntilDone, text);
    var os := ParseAll(ms);
    forall i | 0 <= i < |os| ensures os[i].None? {
      assert ms[i] in ms;
    }
    SomesOfNones(os);
    assert Patterns[|Patterns| - 1] == UntilDone;
  }

  /** `ParsedStep.confidence`, and the `method` (here `source`) of a suggestion. */
  datatype Confidence = Extracted | Predicted | UserSet

  /** A step with its duration (`duration_minutes` is always set on this path). */
  datatype ParsedStep = ParsedStep(
    text: string,
    durationMinutes: int,
    originalText: string,
    confidence: Confidence,
    timePhrases: seq<string>)

  /** The duration predictor: untrained (no saved model) or a trained estimate. */
  datatype Predictor = Untrained | Trained(estimate: string -> real)

  /** `int(x)`: truncation toward zero. */
  function TruncReal(x: real): (n: int)
    ensures x >= 0.0 ==> n as real <= x < n as real + 1.0
    ensures x < 0.0 ==> n as real - 1.0 < x <= n as real
  {
    if x >= 0.0 then x.Floor else -((-x).Floor)
  }

  /** `StepTimePredictor.predict`: 5 minutes without a model, else at least 1 minute. */
  function Predict(p: Predictor, step: string): (m: int)
    ensures m >= 1
    ensures p.Untrained? ==> m == 5
    ensures p.Trained? && p.estimate(step) >= 1.0 ==> m as real <= p.estimate(step) < m as real + 1.0
  {
    match p
    case Untrained => 5
    case Trained(f) => Max(1, TruncReal(f(step)))
  }

  /** The text 50 characters either side of a match, stripped. */
  function Context(text: string, t: TimeInfo): string
  {
    var lo := Max(0, t.start - 50);
    var hi := Min(|text|, t.end + 50);
    Strip(Slice(text, lo, hi))
  }

  /** A split step's text: its context, or a placeholder naming the phrase when that is blank. */
  function PieceText(text: string, t: TimeInfo, i: nat): string
  {
    var c := Context(text, t);
    if c != [] then c else "Step " + NatToString(i + 1) + ": " + t.phrase + " from original step"
  }

  function PieceOf(text: string, t: TimeInfo, i: nat): ParsedStep
  {
    ParsedStep(PieceText(text, t, i), t.minutes, text, Extracted, [t.phrase])
  }

  /** What `_split_step_by_times` returns for the first durations: one step per duration, in order. */
  function SplitByTimes(text: string, ts: seq<TimeInfo>): (r: seq<ParsedStep>)
    ensures |r| == |ts|
  {
    if ts == [] then [] else SplitByTimes(text, ts[..|ts| - 1]) + [PieceOf(text, ts[|ts| - 1], |ts| - 1)]
  }

  lemma {:induction false} SplitByTimesPieces(text: string, ts: seq<TimeInfo>)
    ensures forall i :: 0 <= i < |ts| ==> SplitByTimes(text, ts)[i] == PieceOf(text, ts[i], i)
  {
    if ts != [] {
      var pre := ts[..|ts| - 1];
      SplitByTimesPieces(text, pre);
      forall i | 0 <= i < |ts| - 1 ensures SplitByTimes(text, ts)[i] == PieceOf(text, ts[i], i) {
        assert SplitByTimes(text, ts)[i] == SplitByTimes(text, pre)[i];
        assert pre[i] == ts[i];
      }
    }
  }

  /** `_split_step_by_times` */
  method SplitStepByTimes(text: string, ts: seq<TimeInfo>) returns (steps: seq<ParsedStep>)
    ensures steps == SplitByTimes(text, ts)
  {
    steps := [];
    var i := 0;
    while i < |ts|
      invariant 0 <= i <= |ts|
      invariant steps == SplitByTimes(text, ts[..i])
    {
      assert ts[..i + 1][..i] == ts[..i];
      steps := steps + [PieceOf(text, ts[i], i)];
      i := i + 1;
    }
    assert ts[..i] == ts;
  }

  lemma ContextKeepsPhrase(text: string, t: TimeInfo)
    requires t.start <= t.end <= |text| && text[t.start..t.end] == t.phrase && IsStripped(t.phrase)
    ensures Contains(Context(text, t), t.phrase)
  {
    var lo: nat := Max(0, t.start - 50);
    var hi: nat := Min(|text|, t.end + 50);
    WindowKeeps(text, lo, hi, t.phrase, t.start);
  }

  /** A stripped window around an occurrence of a stripped phrase still contains it. */
  lemma WindowKeeps(text: string, lo: nat, hi: nat, phrase: string, k: nat)
    requires lo <= k && k + |phrase| <= hi <= |text| && text[k..k + |phrase|] == phrase && IsStripped(phrase)
    ensures Contains(Strip(Slice(text, lo, hi)), phrase)
  {
    SliceKeeps(text, lo, hi, phrase, k);
    StripKeeps(Slice(text, lo, hi), phrase, k - lo);
  }

  /**
   * When the match lies in the text and its phrase has no surrounding
   * whitespace (every pattern starts with a digit or letter and ends with
   * one), the piece's text is its context window, and that window still
   * contains the phrase.
   */
  lemma PieceKeepsPhrase(text: string, t: TimeInfo, i: nat)
    requires t.start <= t.end <= |text| && text[t.start..t.end] == t.phrase && IsStripped(t.phrase)
    ensures PieceText(text, t, i) == Context(text, t)
    ensures Contains(PieceText(text, t, i), t.phrase)
  {
    ContextKeepsPhrase(text, t);
  }

  /** What `parse_step_times` returns. */
  function ParseStep(mt: Matcher, p: Predictor, step: string): seq<ParsedStep>
  {
    var text := Strip(step);
    var ts := AllTimes(mt, text);
    if ts == [] then [ParsedStep(text, Predict(p, text), text, Predicted, [])]
    else if |ts| == 1 then [ParsedStep(text, ts[0].minutes, text, Extracted, [ts[0].phrase])]
    else SplitByTimes(text, ts)
  }

  /** `parse_step_times` */
  method ParseStepTimes(mt: Matcher, p: Predictor, step: string) returns (r: seq<ParsedStep>)
    ensures r == ParseStep(mt, p, step)
  {
    var text := Strip(step);
    var ts := ExtractAllTimes(mt, text);
    if ts == [] {
      return [ParsedStep(text, Predict(p, text), text, Predicted, [])];
    }
    if |ts| == 1 {
      return [ParsedStep(text, ts[0].minutes, text, Extracted, [ts[0].phrase])];
    }
    r := SplitStepByTimes(text, ts);
  }

  /**
   * A step yields one parsed step when no duration is found and one per
   * distinct duration otherwise; each remembers the stripped original and
   * lasts at least a minute.
   */
  lemma ParseStepShape(mt: Matcher, p: Predictor, step: string)
    ensures var text := Strip(step);
      var ts := AllTimes(mt, text);
      var r := ParseStep(mt, p, step);
      |r| == (if ts == [] then 1 else |ts|)
      && (forall i :: 0 <= i < |r| ==> r[i].originalText == text && r[i].durationMinutes >= 1)
  {
    var text := Strip(step);
    var ts := AllTimes(mt, text);
    AllTimesPositive(mt, text);
    if |ts| >= 2 {
      SplitByTimesPieces(text, ts);
      assert ParseStep(mt, p, step) == SplitByTimes(text, ts);
    }
  }

  /** A step with no duration becomes one predicted step of the whole text. */
  lemma ParseStepPredicted(mt: Matcher, p: Predictor, step: string)
    requires AllTimes(mt, Strip(step)) == []
    ensures var text := Strip(step);
      ParseStep(mt, p, step) == [ParsedStep(text, Predict(p, text), text, Predicted, [])]
  {
  }

  /**
   * With durations found, the parsed steps are extracted ones, one per
   * distinct duration in text order, carrying that duration and its phrase;
   * a single duration keeps the whole text, several split it into context
   * windows.
   */
  lemma ParseStepExtracted(mt: Matcher, p: Predictor, step: string)
    requires AllTimes(mt, Strip(step)) != []
    ensures var text := Strip(step);
      var ts := AllTimes(mt, text);
      var r := ParseStep(mt, p, step);
      |r| == |ts|
      && (forall i :: 0 <= i < |ts| ==>
            r[i].confidence == Extracted && r[i].durationMinutes == ts[i].minutes && r[i].timePhrases == [ts[i].phrase])
      && (|ts| == 1 ==> r[0].text == text)
      && (|ts| >= 2 ==> forall i :: 0 <= i < |ts| ==> r[i].text == PieceText(text, ts[i], i))
  {
    var text := Strip(step);
    var ts := AllTimes(mt, text);
    if |ts| >= 2 {
      SplitByTimesPieces(text, ts);
      assert ParseStep(mt, p, step) == SplitByTimes(text, ts);
    }
  }

  const SureKeywords: seq<string> := ["mix", "stir", "add", "combine", "season"]
  const UnsureKeywords: seq<string> := ["cook until done", "bake until golden", "simmer until tender"]

  datatype SuggestConfidence = High | MediumHigh | Medium | Low

  /** A suggested duration with its confidence, where it came from, and the phrases found. */
  datatype Suggestion = Suggestion(
    timeMinutes: int,
    confidence: SuggestConfidence,
    source: Confidence,
    phrasesFound: seq<string>)

  function Phrases(ts: seq<TimeInfo>): (r: seq<string>)
    ensures |r| == |ts|
    ensures forall i :: 0 <= i < |ts| ==> r[i] == ts[i].phrase
  {
    seq(|ts|, i requires 0 <= i < |ts| => ts[i].phrase)
  }

  /** The confidence of a predicted duration, from keywords in the lower-cased step. */
  function KeywordConfidence(text: string): SuggestConfidence
  {
    var lowered := Lower(text);
    if AnyKeyword(lowered, SureKeywords) then MediumHigh
    else if AnyKeyword(lowered, UnsureKeywords) then Low
    else Medium
  }

  /** What `suggest_step_time` returns (on the step as given, not stripped). */
  function Suggest(mt: Matcher, p: Predictor, text: string): Suggestion
  {
    var ts := AllTimes(mt, text);
    if ts != [] then Suggestion(ts[0].minutes, High, Extracted, Phrases(ts))
    else Suggestion(Predict(p, text), KeywordConfidence(text), Predicted, [])
  }

  /** `suggest_step_time` */
  method SuggestStepTime(mt: Matcher, p: Predictor, text: string) returns (s: Suggestion)
    ensures s == Suggest(mt, p, text)
  {
    var ts := ExtractAllTimes(mt, text);
    if ts != [] {
      return Suggestion(ts[0].minutes, High, Extracted, Phrases(ts));
    }
    var predicted := Predict(p, text);
    var confidence := KeywordConfidence(text);
    return Suggestion(predicted, confidence, Predicted, []);
  }

  /**
   * A found duration is suggested with high confidence: the earliest one in
   * the text, with every distinct phrase found, in order. Otherwise the
   * prediction is suggested, with a confidence that only keywords decide.
   * Either way the suggestion is at least a minute.
   */
  lemma SuggestProperties(mt: Matcher, p: Predictor, text: string)
    ensures var ts := AllTimes(mt, text);
      var s := Suggest(mt, p, text);
      s.timeMinutes >= 1
      && (s.source == Extracted <==> ts != [])
      && (s.source == Extracted <==> s.confidence == High)
      && (ts != [] ==> s.timeMinutes == ts[0].minutes
                       && (forall j :: 0 <= j < |ts| ==> ts[0].start <= ts[j].start)
                       && |s.phrasesFound| == |ts|
                       && (forall i, j :: 0 <= i < j < |s.phrasesFound| ==> s.phrasesFound[i] != s.phrasesFound[j]))
      && (ts == [] ==> s.timeMinutes == Predict(p, text) && s.phrasesFound == []
                       && (s.confidence == MediumHigh <==> AnyKeyword(Lower(text), SureKeywords))
                       && (s.confidence == Low <==>
                             !AnyKeyword(Lower(text), SureKeywords) && AnyKeyword(Lower(text), UnsureKeywords)))
  {
    var ts := AllTimes(mt, text);
    AllTimesProperties(mt, text);
    if ts != [] {
      ByStartMonotone(ts);
    }
  }

  /** Every step's parsed steps, step by step. */
  function ParsedBlocks(mt: Matcher, p: Predictor, steps: seq<string>): (b: seq<seq<ParsedStep>>)
    ensures |b| == |steps|
  {
    Map((s: string) => ParseStep(mt, p, s), steps)
  }

  function Texts(block: seq<ParsedStep>): (r: seq<string>)
    ensures |r| == |block|
    ensures forall i :: 0 <= i < |block| ==> r[i] == block[i].text
  {
    seq(|block|, i requires 0 <= i < |block| => block[i].text)
  }

  function Minutes(block: seq<ParsedStep>): (r: seq<int>)
    ensures |r| == |block|
    ensures forall i :: 0 <= i < |block| ==> r[i] == block[i].durationMinutes
  {
    seq(|block|, i requires 0 <= i < |block| => block[i].durationMinutes)
  }

  function Confidences(block: seq<ParsedStep>): (r: seq<Confidence>)
    ensures |r| == |block|
    ensures forall i :: 0 <= i < |block| ==> r[i] == block[i].confidence
  {
    seq(|block|, i requires 0 <= i < |block| => block[i].confidence)
  }

  /** The three lists of `process_recipe_steps`. */
  datatype Expanded = Expanded(steps: seq<string>, times: seq<int>, confidence: seq<Confidence>)

  /** The texts, durations and confidences of all blocks, one block after another. */
  function Expand(blocks: seq<seq<ParsedStep>>): (r: Expanded)
    ensures |r.steps| == |r.times| == |r.confidence|
  {
    if blocks == [] then Expanded([], [], [])
    else
      var init := Expand(blocks[..|blocks| - 1]);
      var block := blocks[|blocks| - 1];
      Expanded(init.steps + Texts(block), init.times + Minutes(block), init.confidence + Confidences(block))
  }

  lemma ExpandSnoc(blocks: seq<seq<ParsedStep>>, i: nat)
    requires i < |blocks|
    ensures var e := Expand(blocks[..i]);
      Expand(blocks[..i + 1])
      == Expanded(e.steps + Texts(blocks[i]), e.times + Minutes(blocks[i]), e.confidence + Confidences(blocks[i]))
  {
    assert blocks[..i + 1][..i] == blocks[..i];
  }

  /** What `process_recipe_steps` returns. */
  function ProcessSteps(mt: Matcher, p: Predictor, steps: seq<string>): Expanded
  {
    Expand(ParsedBlocks(mt, p, steps))
  }

  /** The inner loop of `process_recipe_steps`: one step's parsed steps appended to the three lists. */
  method AppendParsed(acc: Expanded, block: seq<ParsedStep>) returns (r: Expanded)
    ensures r == Expanded(acc.steps + Texts(block), acc.times + Minutes(block), acc.confidence + Confidences(block))
  {
    var expandedSteps, stepTimes, confidenceInfo := acc.steps, acc.times, acc.confidence;
    var j := 0;
    while j < |block|
      invariant 0 <= j <= |block|
      invariant expandedSteps == acc.steps + Texts(block[..j])
      invariant stepTimes == acc.times + Minutes(block[..j])
      invariant confidenceInfo == acc.confidence + Confidences(block[..j])
    {
      assert Texts(block[..j + 1]) == Texts(block[..j]) + [block[j].text];
      assert Minutes(block[..j + 1]) == Minutes(block[..j]) + [block[j].durationMinutes];
      assert Confidences(block[..j + 1]) == Confidences(block[..j]) + [block[j].confidence];
      expandedSteps := expandedSteps + [block[j].text];
      stepTimes := stepTimes + [block[j].durationMinutes];
      confidenceInfo := confidenceInfo + [block[j].confidence];
      j := j + 1;
    }
    assert block[..j] == block;
    r := Expanded(expandedSteps, stepTimes, confidenceInfo);
  }

  /** `process_recipe_steps`, with the parser's matcher and predictor as parameters. */
  method ProcessRecipeSteps(mt: Matcher, p: Predictor, steps: seq<string>) returns (r: Expanded)
    ensures r == ProcessSteps(mt, p, steps)
  {
    ghost var blocks := ParsedBlocks(mt, p, steps);
    r := Expanded([], [], []);
    for i := 0 to |steps|
      invariant r == Expand(blocks[..i])
    {
      ExpandSnoc(blocks, i);
      var parsed := ParseStepTimes(mt, p, steps[i]);
      assert parsed == blocks[i];
      r := AppendParsed(r, parsed);
    }
    assert blocks[..|steps|] == blocks;
  }

  lemma {:induction false} ExpandAppend(a: seq<seq<ParsedStep>>, b: seq<seq<ParsedStep>>)
    ensures Expand(a + b).steps == Expand(a).steps + Expand(b).steps
    ensures Expand(a + b).times == Expand(a).times + Expand(b).times
    ensures Expand(a + b).confidence == Expand(a).confidence + Expand(b).confidence
    decreases |b|
  {
    if b == [] {
      assert a + b == a;
    } else {
      var b', last := b[..|b| - 1], b[|b| - 1];
      assert (a + b)[..|a + b| - 1] == a + b';
      assert (a + b)[|a + b| - 1] == last;
      ExpandAppend(a, b');
      var ea, eb', eab' := Expand(a), Expand(b'), Expand(a + b');
      assert Expand(a + b) == Expanded(eab'.steps + Texts(last), eab'.times + Minutes(last), eab'.confidence + Confidences(last));
      assert Expand(b) == Expanded(eb'.steps + Texts(last), eb'.times + Minutes(last), eb'.confidence + Confidences(last));
      AppendAssoc(ea.steps, eb'.steps, Texts(last));
      AppendAssoc(ea.times, eb'.times, Minutes(last));
      AppendAssoc(ea.confidence, eb'.confidence, Confidences(last));
    }
  }

  /**
   * Steps are processed one at a time, in order: the lists for two runs of
   * steps are the lists for the first followed by those for the second.
   */
  lemma ProcessStepsAppend(mt: Matcher, p: Predictor, a: seq<string>, b: seq<string>)
    ensures ProcessSteps(mt, p, a + b).steps == ProcessSteps(mt, p, a).steps + ProcessSteps(mt, p, b).steps
    ensures ProcessSteps(mt, p, a + b).times == ProcessSteps(mt, p, a).times + ProcessSteps(mt, p, b).times
    ensures ProcessSteps(mt, p, a + b).confidence == ProcessSteps(mt, p, a).confidence + ProcessSteps(mt, p, b).confidence
  {
    MapAppend((s: string) => ParseStep(mt, p, s), a, b);
    ExpandAppend(ParsedBlocks(mt, p, a), ParsedBlocks(mt, p, b));
  }

  predicate PositiveBlocks(blocks: seq<seq<ParsedStep>>)
  {
    forall i, j :: 0 <= i < |blocks| && 0 <= j < |blocks[i]| ==> blocks[i][j].durationMinutes >= 1
  }

  lemma {:induction false} ExpandBounds(blocks: seq<seq<ParsedStep>>)
    requires forall i :: 0 <= i < |blocks| ==> |blocks[i]| >= 1
    requires PositiveBlocks(blocks)
    ensures |Expand(blocks).steps| >= |blocks|
    ensures forall k :: 0 <= k < |Expand(blocks).times| ==> Expand(blocks).times[k] >= 1
  {
    if blocks != [] {
      var pre := blocks[..|blocks| - 1];
      assert PositiveBlocks(pre) by {
        forall i, j | 0 <= i < |pre| && 0 <= j < |pre[i]| ensures pre[i][j].durationMinutes >= 1 {
          assert pre[i] == blocks[i];
        }
      }
      ExpandBounds(pre);
      var block := blocks[|blocks| - 1];
      var ms := Minutes(block);
      forall k | 0 <= k < |ms| ensures ms[k] >= 1 {
        assert block[k].durationMinutes >= 1;
      }
    }
  }

  /**
   * The three lists are parallel, hold at least one entry per original step,
   * and every duration is at least a minute.
   */
  lemma ProcessStepsBounds(mt: Matcher, p: Predictor, steps: seq<string>)
    ensures var r := ProcessSteps(mt, p, steps);
      |r.steps| == |r.times| == |r.confidence| >= |steps|
      && forall k :: 0 <= k < |r.times| ==> r.times[k] >= 1
  {
    var blocks: seq<seq<ParsedStep>> := ParsedBlocks(mt, p, steps);
    forall i | 0 <= i < |blocks|
      ensures |blocks[i]| >= 1
      ensures forall j :: 0 <= j < |blocks[i]| ==> blocks[i][j].durationMinutes >= 1
    {
      ParseStepShape(mt, p, steps[i]);
    }
    ExpandBounds(blocks);
  }
}
