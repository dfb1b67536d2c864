/**
  The text report of `SavingsCalculator.format_results`: a list of lines built
  by successive appends, with a branch on the break-even figure and an optional
  annual block, joined with newlines. How a number is rendered (`:.2f`, `:,.0f`,
  plain `str`, ...) is left to the `render` parameter; only the line structure,
  the literal text and the branch choice are modelled.
*/
module SavingsReport {
  import opened Wrappers
  import opened Numerals
  import opened Calculator

  /** The format specifications the report applies to floats. */
  datatype NumFormat =
    | Plain                       // `{x}`: str() of a float
    | Fixed(decimals: nat)        // `{x:.Nf}`
    | GroupedFixed(decimals: nat) // `{x:,.Nf}`: thousands separators
    | Grouped                     // `{x:,}`: str() with thousands separators

  /** Full-time working hours in a year, used for the salary comparison. */
  const WorkHoursPerYear: real := 2080.0
  /** Days in the month the break-even figures are spread over. */
  const DaysPerMonth: real := 30.0

  const RuleWidth: nat := 60
  /** The horizontal rule that opens and closes the report. */
  const Rule: string := "============================================================"

  const ReportTitle: string := "\U{1F4B0} WISPRFLOW SAVINGS ANALYSIS"
  const BreakEvenHeading: string := "\U{1F3AF} Break-Even Analysis:"
  const AdvisorySlower: string := "   \U{26A0}\U{FE0F} Speaking slower than typing - cannot break even"
  const AdvisoryImprove: string := "   Consider improving your speaking speed or typing speed"

  // The fixed text of the report's lines, around the rendered numbers.
  const SessionHeading: string := "\U{1F4CA} Session Data:"
  const WordsSpokenLabel: string := "   Words spoken: "
  const SpeakingSpeedLabel: string := "   Speaking speed: "
  const TypingSpeedLabel: string := "   Typing speed: "
  const WpmUnit: string := " WPM"
  const TimeHeading: string := "\U{23F1}\U{FE0F} Time Analysis:"
  const SpeakingTimeLabel: string := "   Time spent speaking: "
  const TypingTimeLabel: string := "   Time would have spent typing: "
  const TimeSavedLabel: string := "   Time saved: "
  const MinutesUnit: string := " minutes"
  const MinutesOpen: string := " minutes ("
  const HoursClose: string := " hours)"
  const CostHeading: string := "\U{1F4B5} Cost Analysis:"
  const SubscriptionLabel: string := "   Subscription: "
  const MonthlyCostLabel: string := "   Monthly cost: $"
  const HourlyRateLabel: string := "   Your hourly rate: $"
  const ValueSavedLabel: string := "   Value of time saved: $"
  const BreakEvenWordsLabel: string := "   Words needed to break even: "
  const SpeakingNeededLabel: string := "   Speaking time needed: "
  const ValuePerWordLabel: string := "   Value saved per word: $"
  const DailyRequirementLabel: string := "   Daily requirement: "
  const WordsOpen: string := " words ("
  const MinutesClose: string := " minutes)"
  const AnnualHeaderLabel: string := "\U{1F4C8} Annual Projections (Based on "
  const AnnualHeaderClose: string := " words/day):"
  const AnnualWordsLabel: string := "   Annual words spoken: "
  const AnnualTimeLabel: string := "   Annual time saved: "
  const HoursUnit: string := " hours"
  const AnnualValueLabel: string := "   Annual value saved: $"
  const AnnualCostLabel: string := "   Annual subscription cost: $"
  const NetSavingsLabel: string := "   Net annual savings: $"
  const RoiLabel: string := "   ROI: "
  const PercentSign: string := "%"
  const SalaryLabel: string := "   Equivalent to "
  const SalaryMiddle: string := "% of a $"
  const SalaryClose: string := " salary"

  function BreakEvenWordsLine(words: string): string {
    BreakEvenWordsLabel + words
  }

  function DailyRequirementLine(words: string, minutes: string): string {
    DailyRequirementLabel + words + WordsOpen + minutes + MinutesClose
  }

  function SubscriptionLine(subscriptionType: string): string {
    SubscriptionLabel + DisplayName(subscriptionType)
  }

  function RoiLine(roi: string): string {
    RoiLabel + roi + PercentSign
  }

  function SalaryLine(share: string, salary: string): string {
    SalaryLabel + share + SalaryMiddle + salary + SalaryClose
  }

  function AnnualHeader(dailyWords: string): string {
    AnnualHeaderLabel + dailyWords + AnnualHeaderClose
  }

  // ---------------------------------------------------------------------
  // Text helpers: str.replace with single characters, str.title, str.join

  predicate IsUpper(c: char) { 'A' <= c <= 'Z' }
  predicate IsLower(c: char) { 'a' <= c <= 'z' }
  /** A letter that has an upper- and a lower-case form. */
  predicate IsCased(c: char) { IsUpper(c) || IsLower(c) }

  /** The upper-case form of a lower-case ASCII letter: the same letter of the alphabet. */
  function ToUpper(c: char): (u: char)
    ensures IsLower(c) ==> IsUpper(u) && u as int - 'A' as int == c as int - 'a' as int
    ensures !IsLower(c) ==> u == c
  {
    if IsLower(c) then (c as int - 32) as char else c
  }

  /** The lower-case form of an upper-case ASCII letter: the same letter of the alphabet. */
  function ToLower(c: char): (l: char)
    ensures IsUpper(c) ==> IsLower(l) && l as int - 'a' as int == c as int - 'A' as int
    ensures !IsUpper(c) ==> l == c
  {
    if IsUpper(c) then (c as int + 32) as char else c
  }

  /** Changing the case of a letter and back gives the letter again. */
  lemma CaseRoundTrip(c: char)
    ensures IsLower(c) ==> ToLower(ToUpper(c)) == c
    ensures IsUpper(c) ==> ToUpper(ToLower(c)) == c
  {
  }

  /** Every occurrence of `from` replaced by `to`. */
  function ReplaceChar(s: string, from: char, to: char): (r: string)
    ensures |r| == |s|
    ensures forall i :: 0 <= i < |s| ==> r[i] == if s[i] == from then to else s[i]
  {
    if s == [] then [] else [if s[0] == from then to else s[0]] + ReplaceChar(s[1..], from, to)
  }

  /** Title-cases `s`, given whether the character before it was cased. */
  function TitleFrom(s: string, afterCased: bool): (r: string)
    ensures |r| == |s|
  {
    if s == [] then []
    else [if afterCased then ToLower(s[0]) else ToUpper(s[0])] + TitleFrom(s[1..], IsCased(s[0]))
  }

  /** The title-cased form of `s[i]`: lower case right after a cased letter, upper case elsewhere. */
  function TitleChar(s: string, i: nat): char
    requires i < |s|
  {
    if i > 0 && IsCased(s[i - 1]) then ToLower(s[i]) else ToUpper(s[i])
  }

  /**
    `str.title()`: a cased letter is upper-cased when no cased letter precedes
    it, lower-cased otherwise; every other character is kept.
  */
  function Title(s: string): (r: string)
    ensures |r| == |s|
    ensures forall i {:trigger r[i]} :: 0 <= i < |s| ==> r[i] == TitleChar(s, i)
  {
    TitleFromEveryAt(s);
    TitleFrom(s, false)
  }

  lemma TitleFromEveryAt(s: string)
    ensures forall i :: 0 <= i < |s| ==> TitleFrom(s, false)[i] == TitleChar(s, i)
  {
    forall i | 0 <= i < |s| {
      TitleFromAt(s, false, i);
    }
  }

  lemma {:induction false} TitleFromAt(s: string, afterCased: bool, i: nat)
    requires i < |s|
    ensures TitleFrom(s, afterCased)[i] ==
      if (if i == 0 then afterCased else IsCased(s[i - 1])) then ToLower(s[i]) else ToUpper(s[i])
  {
    if i > 0 {
      TitleFromAt(s[1..], IsCased(s[0]), i - 1);
    }
  }

  /** How the report names a plan: underscores become spaces, then title case. */
  function DisplayName(subscriptionType: string): (r: string)
    ensures |r| == |subscriptionType|
    ensures forall i {:trigger r[i]} :: 0 <= i < |subscriptionType| ==>
      r[i] == if subscriptionType[i] == '_' then ' ' else TitleChar(subscriptionType, i)
  {
    Title(ReplaceChar(subscriptionType, '_', ' '))
  }

  /** A non-empty word of lower-case ASCII letters. */
  predicate LowerWord(w: string) {
    |w| > 0 && forall i :: 0 <= i < |w| ==> IsLower(w[i])
  }

  /** A lower-case word with its initial upper-cased. */
  function Capitalized(w: string): (r: string)
    requires LowerWord(w)
  {
    [ToUpper(w[0])] + w[1..]
  }

  /** Title-casing text piece by piece: the second piece starts from the case of the first one's end. */
  lemma {:induction false} TitleFromAppend(a: string, b: string, afterCased: bool)
    ensures TitleFrom(a + b, afterCased)
         == TitleFrom(a, afterCased) + TitleFrom(b, if a == [] then afterCased else IsCased(a[|a| - 1]))
  {
    if a != [] {
      var tail, cased := a[1..], IsCased(a[0]);
      var head := [if afterCased then ToLower(a[0]) else ToUpper(a[0])];
      assert (a + b)[0] == a[0] && (a + b)[1..] == tail + b;
      assert (if tail == [] then cased else IsCased(tail[|tail| - 1])) == IsCased(a[|a| - 1]);
      var x, y := TitleFrom(tail, cased), TitleFrom(b, IsCased(a[|a| - 1]));
      TitleFromAppend(tail, b, cased);
      assert TitleFrom(a + b, afterCased) == head + (x + y);
      assert TitleFrom(a, afterCased) == head + x;
      ConcatAssociative(head, x, y);
    } else {
      assert a + b == b;
    }
  }

  /** Concatenation can be regrouped. */
  lemma ConcatAssociative<T>(x: seq<T>, y: seq<T>, z: seq<T>)
    ensures x + (y + z) == (x + y) + z
  {
  }

  /** After a cased letter, lower-case letters stay as they are. */
  lemma {:induction false} TitleFromLowerTail(w: string)
    requires forall i :: 0 <= i < |w| ==> IsLower(w[i])
    ensures TitleFrom(w, true) == w
  {
    if w != [] {
      TitleFromLowerTail(w[1..]);
    }
  }

  /** Title-casing a lower-case word on its own capitalises it. */
  lemma TitleOfLowerWord(w: string)
    requires LowerWord(w)
    ensures TitleFrom(w, false) == Capitalized(w)
  {
    TitleFromLowerTail(w[1..]);
  }

  /** A one-word plan name is shown capitalised. */
  lemma DisplayNameOfWord(w: string)
    requires LowerWord(w)
    ensures DisplayName(w) == Capitalized(w)
  {
    assert ReplaceChar(w, '_', ' ') == w;
    TitleOfLowerWord(w);
  }

  /** A plan name `first_second` is shown as the two words capitalised, with a space between. */
  lemma DisplayNameOfTwoWords(first: string, second: string)
    requires LowerWord(first) && LowerWord(second)
    ensures DisplayName(first + "_" + second) == Capitalized(first) + " " + Capitalized(second)
  {
    var k := ReplaceChar(first + "_" + second, '_', ' ');
    assert k == first + (" " + second);
    TitleFromAppend(first, " " + second, false);
    TitleFromAppend(" ", second, true);
    TitleOfLowerWord(first);
    TitleOfLowerWord(second);
  }

  /** The student plan as the report shows it. */
  lemma StudentDisplayName()
    ensures DisplayName(TierKey(Student)) == "Student"
  {
    assert LowerWord("student");
    DisplayNameOfWord("student");
    assert Capitalized("student") == "Student";
  }

  /** The monthly pro plan as the report shows it. */
  lemma ProMonthlyDisplayName()
    ensures DisplayName(TierKey(ProMonthly)) == "Pro Monthly"
  {
    assert LowerWord("pro") && LowerWord("monthly");
    assert TierKey(ProMonthly) == "pro" + "_" + "monthly";
    DisplayNameOfTwoWords("pro", "monthly");
    ProMonthlyWords();
  }

  /** The two capitalised words of the monthly pro plan, with the space between. */
  lemma ProMonthlyWords()
    ensures Capitalized("pro") + " " + Capitalized("monthly") == "Pro Monthly"
  {
    assert Capitalized("pro") == "Pro" && Capitalized("monthly") == "Monthly";
  }

  /** The annual pro plan as the report shows it. */
  lemma ProAnnuallyDisplayName()
    ensures DisplayName(TierKey(ProAnnually)) == "Pro Annually"
  {
    assert LowerWord("pro") && LowerWord("annually");
    assert TierKey(ProAnnually) == "pro" + "_" + "annually";
    DisplayNameOfTwoWords("pro", "annually");
    ProAnnuallyWords();
  }

  /** The two capitalised words of the annually pro plan, with the space between. */
  lemma ProAnnuallyWords()
    ensures Capitalized("pro") + " " + Capitalized("annually") == "Pro Annually"
  {
    assert Capitalized("pro") == "Pro" && Capitalized("annually") == "Annually";
  }

  /** `sep.join(lines)`: the lines with `sep` between neighbours. */
  function Join(lines: seq<string>, sep: string): (r: string)
    ensures |lines| > 0 ==> |lines[0]| <= |r| && r[..|lines[0]|] == lines[0]
    ensures |lines| > 0 ==> |lines[|lines| - 1]| <= |r| && r[|r| - |lines[|lines| - 1]|..] == lines[|lines| - 1]
    ensures |lines| == 1 ==> r == lines[0]
    ensures |lines| == 0 ==> r == ""
  {
    if |lines| == 0 then ""
    else if |lines| == 1 then lines[0]
    else lines[0] + sep + Join(lines[1..], sep)
  }

  /** One more line is joined on after one more separator: every neighbouring pair is split by `sep`. */
  lemma {:induction false} JoinAppend(lines: seq<string>, x: string, sep: string)
    requires |lines| > 0
    ensures Join(lines + [x], sep) == Join(lines, sep) + sep + x
  {
    assert (lines + [x])[0] == lines[0];
    if |lines| == 1 {
      assert (lines + [x])[1..] == [x];
    } else {
      assert (lines + [x])[1..] == lines[1..] + [x];
      JoinAppend(lines[1..], x, sep);
      ConcatAssociative(lines[0] + sep, Join(lines[1..], sep) + sep, x);
      ConcatAssociative(lines[0], sep, Join(lines[1..], sep));
    }
  }

  // ---------------------------------------------------------------------
  // The report

  /** Whether the report compares against the break-even figure (it is not infinite). */
  predicate HasBreakEven(summary: SessionSummary) {
    summary.wordsToBreakEven != Infinity
  }

  /** What the annual header shows as words per day: the caller's figure, or the break-even words over a month. */
  function ShownDailyWords(summary: SessionSummary, dailyWords: nat, render: (real, NumFormat) -> string): (r: string)
    ensures HasBreakEven(summary) ==> r == render(summary.wordsToBreakEven.value / DaysPerMonth, Plain)
    ensures !HasBreakEven(summary) ==> AllDigits(r) && DecimalValue(r) == dailyWords
  {
    DecimalValueOfNatToString(dailyWords);
    if HasBreakEven(summary) then render(summary.wordsToBreakEven.value / DaysPerMonth, Plain)
    else NatToString(dailyWords)
  }

  /** The first twenty lines: title, session data, time and cost analysis, break-even heading. */
  function OpeningLines(summary: SessionSummary, hourlyRate: real, monthlySubscriptionCost: real,
                        wordsSpoken: nat, speakingWpm: real, typingWpm: real,
                        render: (real, NumFormat) -> string): seq<string>
  {
    [Rule,
     ReportTitle,
     Rule,
     SessionHeading,
     WordsSpokenLabel + NatToString(wordsSpoken),
     SpeakingSpeedLabel + render(speakingWpm, Plain) + WpmUnit,
     TypingSpeedLabel + render(typingWpm, Plain) + WpmUnit,
     "",
     TimeHeading,
     SpeakingTimeLabel + render(summary.speakingTimeMinutes, Fixed(2)) + MinutesUnit,
     TypingTimeLabel + render(summary.typingTimeMinutes, Fixed(2)) + MinutesUnit,
     TimeSavedLabel + render(summary.timeSavedMinutes, Fixed(2)) + MinutesOpen
       + render(summary.timeSavedMinutes / MinutesPerHour, Fixed(2)) + HoursClose,
     "",
     CostHeading,
     SubscriptionLine(summary.subscriptionType),
     MonthlyCostLabel + render(monthlySubscriptionCost, Fixed(2)),
     HourlyRateLabel + render(hourlyRate, Fixed(2)),
     ValueSavedLabel + render(summary.costSavings, Fixed(4)),
     "",
     BreakEvenHeading]
  }

  /** `lines` followed by the four break-even lines, or by the two advisory lines when the count is infinite. */
  function WithBreakEvenLines(lines: seq<string>, summary: SessionSummary,
                              render: (real, NumFormat) -> string): seq<string>
  {
    if HasBreakEven(summary) then
      lines
      + [ BreakEvenWordsLine(render(summary.wordsToBreakEven.value, GroupedFixed(0))),
         SpeakingNeededLabel + render(summary.minutesToBreakEven, Fixed(1)) + MinutesOpen
         + render(summary.minutesToBreakEven / MinutesPerHour, Fixed(2)) + HoursClose,
         ValuePerWordLabel + render(summary.valueSavedPerWord, Fixed(6)),
         DailyRequirementLine(render(summary.wordsToBreakEven.value / DaysPerMonth, Fixed(0)),
                              render(summary.minutesToBreakEven / DaysPerMonth, Fixed(1)))]
    else
      lines + [AdvisorySlower, AdvisoryImprove]
  }

  /** `lines` followed by the nine lines of the annual block, when there is annual data. */
  function WithAnnualLines(lines: seq<string>, annual: Option<AnnualData>, shownDailyWords: string,
                           hourlyRate: real, render: (real, NumFormat) -> string): seq<string>
    requires annual.Some? ==> hourlyRate != 0.0
  {
    if annual.Some? then
      lines
      + [ "",
         AnnualHeader(shownDailyWords),
         AnnualWordsLabel + render(annual.value.annualWords, Grouped),
         AnnualTimeLabel + render(annual.value.annualTimeSavedHours, Fixed(1)) + HoursUnit,
         AnnualValueLabel + render(annual.value.annualValueSaved, GroupedFixed(2)),
         AnnualCostLabel + render(annual.value.annualSubscriptionCost, Fixed(2)),
         NetSavingsLabel + render(annual.value.netAnnualSavings, GroupedFixed(2)),
         RoiLine(render(annual.value.roiPercentage, Fixed(1))),
         SalaryLine(render(annual.value.netAnnualSavings / (hourlyRate * WorkHoursPerYear) * 100.0, Fixed(2)),
                    render(hourlyRate * WorkHoursPerYear, GroupedFixed(0)))]
    else
      lines
  }

  /**
    The lines of a report that completes, in order: the opening lines, the
    break-even or advisory lines, the annual block when there is annual data,
    and the closing rule.
  */
  function ReportLines(results: Results, hourlyRate: real, monthlySubscriptionCost: real,
                       wordsSpoken: nat, speakingWpm: real, typingWpm: real, dailyWords: nat,
                       render: (real, NumFormat) -> string): seq<string>
    requires results.annualData.Some? ==> hourlyRate != 0.0
  {
    WithAnnualLines(
      WithBreakEvenLines(
        OpeningLines(results.summary, hourlyRate, monthlySubscriptionCost,
                     wordsSpoken, speakingWpm, typingWpm, render),
        results.summary, render),
      results.annualData, ShownDailyWords(results.summary, dailyWords, render), hourlyRate, render)
    + [Rule]
  }

  /** The opening lines, by position. */
  lemma OpeningLinesShape(summary: SessionSummary, hourlyRate: real, monthlySubscriptionCost: real,
                          wordsSpoken: nat, speakingWpm: real, typingWpm: real,
                          render: (real, NumFormat) -> string)
    ensures var lines := OpeningLines(summary, hourlyRate, monthlySubscriptionCost,
                                      wordsSpoken, speakingWpm, typingWpm, render);
      && |lines| == 20
      && lines[0] == Rule && lines[1] == ReportTitle && lines[2] == Rule
      && lines[4] == WordsSpokenLabel + NatToString(wordsSpoken)
      && lines[14] == SubscriptionLine(summary.subscriptionType)
      && lines[19] == BreakEvenHeading
  {
  }

  /** The break-even part keeps the lines before it and adds four lines, or two when the count is infinite. */
  lemma BreakEvenLinesShape(lines: seq<string>, summary: SessionSummary, render: (real, NumFormat) -> string)
    ensures |WithBreakEvenLines(lines, summary, render)| == |lines| + (if HasBreakEven(summary) then 4 else 2)
    ensures WithBreakEvenLines(lines, summary, render)[..|lines|] == lines
    ensures HasBreakEven(summary) ==>
              && WithBreakEvenLines(lines, summary, render)[|lines|]
                 == BreakEvenWordsLine(render(summary.wordsToBreakEven.value, GroupedFixed(0)))
              && WithBreakEvenLines(lines, summary, render)[|lines| + 3]
                 == DailyRequirementLine(render(summary.wordsToBreakEven.value / DaysPerMonth, Fixed(0)),
                                         render(summary.minutesToBreakEven / DaysPerMonth, Fixed(1)))
    ensures !HasBreakEven(summary) ==>
              && WithBreakEvenLines(lines, summary, render)[|lines|] == AdvisorySlower
              && WithBreakEvenLines(lines, summary, render)[|lines| + 1] == AdvisoryImprove
  {
  }

  /** The annual part keeps the lines before it and adds nine lines when there is annual data. */
  lemma AnnualLinesShape(lines: seq<string>, annual: Option<AnnualData>, shownDailyWords: string,
                         hourlyRate: real, render: (real, NumFormat) -> string)
    requires annual.Some? ==> hourlyRate != 0.0
    ensures |WithAnnualLines(lines, annual, shownDailyWords, hourlyRate, render)|
            == |lines| + (if annual.Some? then 9 else 0)
    ensures WithAnnualLines(lines, annual, shownDailyWords, hourlyRate, render)[..|lines|] == lines
    ensures annual.Some? ==>
              && WithAnnualLines(lines, annual, shownDailyWords, hourlyRate, render)[|lines|] == ""
              && WithAnnualLines(lines, annual, shownDailyWords, hourlyRate, render)[|lines| + 1]
                 == AnnualHeader(shownDailyWords)
              && WithAnnualLines(lines, annual, shownDailyWords, hourlyRate, render)[|lines| + 7]
                 == RoiLine(render(annual.value.roiPercentage, Fixed(1)))
              && WithAnnualLines(lines, annual, shownDailyWords, hourlyRate, render)[|lines| + 8]
                 == SalaryLine(render(annual.value.netAnnualSavings / (hourlyRate * WorkHoursPerYear) * 100.0, Fixed(2)),
                               render(hourlyRate * WorkHoursPerYear, GroupedFixed(0)))
  {
  }

  /** Appends the opening lines to an empty report, one line at a time. */
  method AppendOpening(summary: SessionSummary, hourlyRate: real, monthlySubscriptionCost: real,
                       wordsSpoken: nat, speakingWpm: real, typingWpm: real,
                       render: (real, NumFormat) -> string)
    returns (output: seq<string>)
    ensures output == OpeningLines(summary, hourlyRate, monthlySubscriptionCost,
                                   wordsSpoken, speakingWpm, typingWpm, render)
  {
    output := [];
    output := output + [Rule];
    assert output == [Rule];
    output := output + [ReportTitle];
    output := output + [Rule];
    output := output + [SessionHeading];
    output := output + [WordsSpokenLabel + NatToString(wordsSpoken)];
    output := output + [SpeakingSpeedLabel + render(speakingWpm, Plain) + WpmUnit];
    output := output + [TypingSpeedLabel + render(typingWpm, Plain) + WpmUnit];
    output := output + [""];
    output := output + [TimeHeading];
    output := output + [SpeakingTimeLabel + render(summary.speakingTimeMinutes, Fixed(2)) + MinutesUnit];
    output := output + [TypingTimeLabel + render(summary.typingTimeMinutes, Fixed(2)) + MinutesUnit];
    output := output + [TimeSavedLabel + render(summary.timeSavedMinutes, Fixed(2)) + MinutesOpen
                        + render(summary.timeSavedMinutes / MinutesPerHour, Fixed(2)) + HoursClose];
    output := output + [""];
    output := output + [CostHeading];
    output := output + [SubscriptionLine(summary.subscriptionType)];
    output := output + [MonthlyCostLabel + render(monthlySubscriptionCost, Fixed(2))];
    output := output + [HourlyRateLabel + render(hourlyRate, Fixed(2))];
    output := output + [ValueSavedLabel + render(summary.costSavings, Fixed(4))];
    output := output + [""];
    output := output + [BreakEvenHeading];
  }

  /**
    Appends the break-even lines when the break-even word count is not
    infinite, the two advisory lines otherwise. In the break-even branch the
    daily-words text is overwritten with the break-even words spread over a
    month.
  */
  method AppendBreakEven(lines: seq<string>, summary: SessionSummary, dailyWordsText: string,
                         render: (real, NumFormat) -> string)
    returns (output: seq<string>, shownDailyWords: string)
    ensures output == WithBreakEvenLines(lines, summary, render)
    ensures shownDailyWords
            == if HasBreakEven(summary) then render(summary.wordsToBreakEven.value / DaysPerMonth, Plain)
               else dailyWordsText
  {
    output := lines;
    shownDailyWords := dailyWordsText;
    if summary.wordsToBreakEven != Infinity {
      var words := summary.wordsToBreakEven.value;
      var minutes := summary.minutesToBreakEven;
      output := output + [BreakEvenWordsLine(render(words, GroupedFixed(0)))];
      output := output + [SpeakingNeededLabel + render(minutes, Fixed(1)) + MinutesOpen
                          + render(minutes / MinutesPerHour, Fixed(2)) + HoursClose];
      output := output + [ValuePerWordLabel + render(summary.valueSavedPerWord, Fixed(6))];
      var dailyQuota := words / DaysPerMonth;
      var dailyMinutes := minutes / DaysPerMonth;
      shownDailyWords := render(dailyQuota, Plain);
      output := output + [DailyRequirementLine(render(dailyQuota, Fixed(0)), render(dailyMinutes, Fixed(1)))];
    } else {
      output := output + [AdvisorySlower];
      output := output + [AdvisoryImprove];
    }
  }

  /**
    Appends the annual block when there is annual data. The salary comparison
    divides by the hourly rate times 2080 and fails when the rate is zero.
  */
  method AppendAnnual(lines: seq<string>, annual: Option<AnnualData>, shownDailyWords: string,
                      hourlyRate: real, render: (real, NumFormat) -> string)
    returns (r: Result<seq<string>, Error>)
    ensures r.Failure? <==> annual.Some? && hourlyRate == 0.0
    ensures r.Failure? ==> r.error == DivisionByZero
    ensures r.Success? ==> r.value == WithAnnualLines(lines, annual, shownDailyWords, hourlyRate, render)
  {
    var output := lines;
    if annual.Some? {
      var a := annual.value;
      output := output + [""];
      output := output + [AnnualHeader(shownDailyWords)];
      output := output + [AnnualWordsLabel + render(a.annualWords, Grouped)];
      output := output + [AnnualTimeLabel + render(a.annualTimeSavedHours, Fixed(1)) + HoursUnit];
      output := output + [AnnualValueLabel + render(a.annualValueSaved, GroupedFixed(2))];
      output := output + [AnnualCostLabel + render(a.annualSubscriptionCost, Fixed(2))];
      output := output + [NetSavingsLabel + render(a.netAnnualSavings, GroupedFixed(2))];
      output := output + [RoiLine(render(a.roiPercentage, Fixed(1)))];
      var salary := hourlyRate * WorkHoursPerYear;
      if salary == 0.0 {
        return Failure(DivisionByZero);
      }
      output := output + [SalaryLine(render(a.netAnnualSavings / salary * 100.0, Fixed(2)),
                                     render(salary, GroupedFixed(0)))];
    }
    r := Success(output);
  }

  /**
    Builds the report's lines section by section. The annual header shows the
    daily-words text as the break-even part left it, so after the break-even
    lines it is no longer `dailyWords`. Fails with a division by zero when there
    is annual data and the hourly rate is zero.
  */
  method BuildLines(results: Results, hourlyRate: real, monthlySubscriptionCost: real,
                    wordsSpoken: nat, speakingWpm: real, typingWpm: real, dailyWords: nat,
                    render: (real, NumFormat) -> string)
    returns (r: Result<seq<string>, Error>)
    ensures r.Failure? <==> results.annualData.Some? && hourlyRate == 0.0
    ensures r.Failure? ==> r.error == DivisionByZero
    ensures r.Success? ==>
      r.value == ReportLines(results, hourlyRate, monthlySubscriptionCost, wordsSpoken,
                             speakingWpm, typingWpm, dailyWords, render)
  {
    // the caller's daily words, until the break-even part overwrites them
    var dailyWordsText := NatToString(dailyWords);
    var output := AppendOpening(results.summary, hourlyRate, monthlySubscriptionCost,
                                wordsSpoken, speakingWpm, typingWpm, render);
    output, dailyWordsText := AppendBreakEven(output, results.summary, dailyWordsText, render);
    var withAnnual := AppendAnnual(output, results.annualData, dailyWordsText, hourlyRate, render);
    if withAnnual.Failure? {
      return Failure(withAnnual.error);
    }
    r := Success(withAnnual.value + [Rule]);
  }

  /**
    The report: its lines joined with newlines. The text begins and ends with
    the sixty-character rule.
  */
  method FormatResults(results: Results, hourlyRate: real, monthlySubscriptionCost: real,
                       wordsSpoken: nat, speakingWpm: real, typingWpm: real, dailyWords: nat,
                       render: (real, NumFormat) -> string)
    returns (r: Result<string, Error>, output: seq<string>)
    ensures r.Failure? <==> results.annualData.Some? && hourlyRate == 0.0
    ensures r.Failure? ==> r.error == DivisionByZero
    ensures r.Success? ==>
      && output == ReportLines(results, hourlyRate, monthlySubscriptionCost, wordsSpoken,
                               speakingWpm, typingWpm, dailyWords, render)
      && r.value == Join(output, "\n")
    ensures r.Success? ==>
      |r.value| >= RuleWidth && r.value[..RuleWidth] == Rule && r.value[|r.value| - RuleWidth..] == Rule
  {
    var lines := BuildLines(results, hourlyRate, monthlySubscriptionCost, wordsSpoken,
                            speakingWpm, typingWpm, dailyWords, render);
    if lines.Failure? {
      return Failure(lines.error), [];
    }
    output := lines.value;
    ReportFramedByRules(results, hourlyRate, monthlySubscriptionCost, wordsSpoken, speakingWpm, typingWpm, dailyWords, render);
    JoinFramedByRules(output);
    r := Success(Join(output, "\n"));
  }

  /** Lines that start and end with the rule join into a text that starts and ends with it. */
  lemma JoinFramedByRules(lines: seq<string>)
    requires |lines| > 0 && lines[0] == Rule && lines[|lines| - 1] == Rule
    ensures var text := Join(lines, "\n");
      |text| >= RuleWidth && text[..RuleWidth] == Rule && text[|text| - RuleWidth..] == Rule
  {
    assert |Rule| == RuleWidth;
  }

  /**
    A report has 20 opening lines, 4 break-even or 2 advisory lines, 9 annual
    lines when there is annual data, and the closing rule.
  */
  lemma ReportLineCount(results: Results, hourlyRate: real, monthlySubscriptionCost: real,
                        wordsSpoken: nat, speakingWpm: real, typingWpm: real, dailyWords: nat,
                        render: (real, NumFormat) -> string)
    requires results.annualData.Some? ==> hourlyRate != 0.0
    ensures var lines := ReportLines(results, hourlyRate, monthlySubscriptionCost, wordsSpoken,
                                     speakingWpm, typingWpm, dailyWords, render);
      |lines| == 21 + (if HasBreakEven(results.summary) then 4 else 2)
                  + (if results.annualData.Some? then 9 else 0)
  {
    var opening := OpeningLines(results.summary, hourlyRate, monthlySubscriptionCost,
                                wordsSpoken, speakingWpm, typingWpm, render);
    var analysed := WithBreakEvenLines(opening, results.summary, render);
    var shown := ShownDailyWords(results.summary, dailyWords, render);
    var annual := WithAnnualLines(analysed, results.annualData, shown, hourlyRate, render);
    OpeningLinesShape(results.summary, hourlyRate, monthlySubscriptionCost, wordsSpoken, speakingWpm, typingWpm, render);
    BreakEvenLinesShape(opening, results.summary, render);
    AnnualLinesShape(analysed, results.annualData, shown, hourlyRate, render);
  }

  /** The report opens with the rule, the title and the rule again, and closes with the rule. */
  lemma ReportFramedByRules(results: Results, hourlyRate: real, monthlySubscriptionCost: real,
                        wordsSpoken: nat, speakingWpm: real, typingWpm: real, dailyWords: nat,
                        render: (real, NumFormat) -> string)
    requires results.annualData.Some? ==> hourlyRate != 0.0
    ensures var lines := ReportLines(results, hourlyRate, monthlySubscriptionCost, wordsSpoken,
                                     speakingWpm, typingWpm, dailyWords, render);
      && |lines| > 2
      && lines[0] == Rule && lines[1] == ReportTitle && lines[2] == Rule
      && lines[|lines| - 1] == Rule
  {
    var opening := OpeningLines(results.summary, hourlyRate, monthlySubscriptionCost,
                                wordsSpoken, speakingWpm, typingWpm, render);
    var analysed := WithBreakEvenLines(opening, results.summary, render);
    var shown := ShownDailyWords(results.summary, dailyWords, render);
    var annual := WithAnnualLines(analysed, results.annualData, shown, hourlyRate, render);
    OpeningLinesShape(results.summary, hourlyRate, monthlySubscriptionCost, wordsSpoken, speakingWpm, typingWpm, render);
    BreakEvenLinesShape(opening, results.summary, render);
    AnnualLinesShape(analysed, results.annualData, shown, hourlyRate, render);
    assert annual[..|analysed|][..|opening|] == opening;
  }

  /** The words spoken are on line 5 and the plan, by its display name, on line 15. */
  lemma ReportShowsPlan(results: Results, hourlyRate: real, monthlySubscriptionCost: real,
                        wordsSpoken: nat, speakingWpm: real, typingWpm: real, dailyWords: nat,
                        render: (real, NumFormat) -> string)
    requires results.annualData.Some? ==> hourlyRate != 0.0
    ensures var lines := ReportLines(results, hourlyRate, monthlySubscriptionCost, wordsSpoken,
                                     speakingWpm, typingWpm, dailyWords, render);
      && |lines| > 19
      && lines[4] == WordsSpokenLabel + NatToString(wordsSpoken)
      && lines[14] == SubscriptionLabel + DisplayName(results.summary.subscriptionType)
      && lines[19] == BreakEvenHeading
  {
    var opening := OpeningLines(results.summary, hourlyRate, monthlySubscriptionCost,
                                wordsSpoken, speakingWpm, typingWpm, render);
    var analysed := WithBreakEvenLines(opening, results.summary, render);
    var shown := ShownDailyWords(results.summary, dailyWords, render);
    var annual := WithAnnualLines(analysed, results.annualData, shown, hourlyRate, render);
    OpeningLinesShape(results.summary, hourlyRate, monthlySubscriptionCost, wordsSpoken, speakingWpm, typingWpm, render);
    BreakEvenLinesShape(opening, results.summary, render);
    AnnualLinesShape(analysed, results.annualData, shown, hourlyRate, render);
    assert annual[..|analysed|][..|opening|] == opening;
  }

  /** When the break-even word count is finite, the break-even lines follow the heading. */
  lemma ReportBreakEvenLines(results: Results, hourlyRate: real, monthlySubscriptionCost: real,
                        wordsSpoken: nat, speakingWpm: real, typingWpm: real, dailyWords: nat,
                        render: (real, NumFormat) -> string)
    requires results.annualData.Some? ==> hourlyRate != 0.0
    requires HasBreakEven(results.summary)
    ensures var lines := ReportLines(results, hourlyRate, monthlySubscriptionCost, wordsSpoken,
                                     speakingWpm, typingWpm, dailyWords, render);
      && |lines| > 23
      && lines[20] == BreakEvenWordsLine(render(results.summary.wordsToBreakEven.value, GroupedFixed(0)))
      && lines[23] == DailyRequirementLine(render(results.summary.wordsToBreakEven.value / DaysPerMonth, Fixed(0)),
                                           render(results.summary.minutesToBreakEven / DaysPerMonth, Fixed(1)))
  {
    var opening := OpeningLines(results.summary, hourlyRate, monthlySubscriptionCost,
                                wordsSpoken, speakingWpm, typingWpm, render);
    var analysed := WithBreakEvenLines(opening, results.summary, render);
    var shown := ShownDailyWords(results.summary, dailyWords, render);
    var annual := WithAnnualLines(analysed, results.annualData, shown, hourlyRate, render);
    OpeningLinesShape(results.summary, hourlyRate, monthlySubscriptionCost, wordsSpoken, speakingWpm, typingWpm, render);
    BreakEvenLinesShape(opening, results.summary, render);
    AnnualLinesShape(analysed, results.annualData, shown, hourlyRate, render);
    assert annual[..|analysed|] == analysed;
  }

  /** When the break-even word count is infinite, the two advisory lines follow the heading. */
  lemma ReportAdvisoryLines(results: Results, hourlyRate: real, monthlySubscriptionCost: real,
                        wordsSpoken: nat, speakingWpm: real, typingWpm: real, dailyWords: nat,
                        render: (real, NumFormat) -> string)
    requires results.annualData.Some? ==> hourlyRate != 0.0
    requires !HasBreakEven(results.summary)
    ensures var lines := ReportLines(results, hourlyRate, monthlySubscriptionCost, wordsSpoken,
                                     speakingWpm, typingWpm, dailyWords, render);
      && |lines| > 21
      && lines[20] == AdvisorySlower && lines[21] == AdvisoryImprove
  {
    var opening := OpeningLines(results.summary, hourlyRate, monthlySubscriptionCost,
                                wordsSpoken, speakingWpm, typingWpm, render);
    var analysed := WithBreakEvenLines(opening, results.summary, render);
    var shown := ShownDailyWords(results.summary, dailyWords, render);
    var annual := WithAnnualLines(analysed, results.annualData, shown, hourlyRate, render);
    OpeningLinesShape(results.summary, hourlyRate, monthlySubscriptionCost, wordsSpoken, speakingWpm, typingWpm, render);
    BreakEvenLinesShape(opening, results.summary, render);
    AnnualLinesShape(analysed, results.annualData, shown, hourlyRate, render);
    assert annual[..|analysed|] == analysed;
  }

  /**
    With annual data, the nine lines before the closing rule are the annual
    block: a blank line, the header with the shown daily words, ..., the ROI
    and the salary comparison.
  */
  lemma ReportAnnualBlock(results: Results, hourlyRate: real, monthlySubscriptionCost: real,
                        wordsSpoken: nat, speakingWpm: real, typingWpm: real, dailyWords: nat,
                        render: (real, NumFormat) -> string)
    requires results.annualData.Some? && hourlyRate != 0.0
    ensures var lines := ReportLines(results, hourlyRate, monthlySubscriptionCost, wordsSpoken,
                                     speakingWpm, typingWpm, dailyWords, render);
      && |lines| > 30
      && lines[|lines| - 10] == ""
      && lines[|lines| - 9] == AnnualHeader(ShownDailyWords(results.summary, dailyWords, render))
      && lines[|lines| - 3] == RoiLine(render(results.annualData.value.roiPercentage, Fixed(1)))
      && lines[|lines| - 2]
         == SalaryLine(render(results.annualData.value.netAnnualSavings / (hourlyRate * WorkHoursPerYear) * 100.0,
                              Fixed(2)),
                       render(hourlyRate * WorkHoursPerYear, GroupedFixed(0)))
  {
    var opening := OpeningLines(results.summary, hourlyRate, monthlySubscriptionCost,
                                wordsSpoken, speakingWpm, typingWpm, render);
    var analysed := WithBreakEvenLines(opening, results.summary, render);
    var shown := ShownDailyWords(results.summary, dailyWords, render);
    ReportLineCount(results, hourlyRate, monthlySubscriptionCost, wordsSpoken, speakingWpm, typingWpm, dailyWords, render);
    AnnualLinesShape(analysed, results.annualData, shown, hourlyRate, render);
  }

  /** Without annual data, the break-even or advisory part runs up to the closing rule. */
  lemma ReportWithoutAnnual(results: Results, hourlyRate: real, monthlySubscriptionCost: real,
                        wordsSpoken: nat, speakingWpm: real, typingWpm: real, dailyWords: nat,
                        render: (real, NumFormat) -> string)
    requires results.annualData.None?
    ensures var lines := ReportLines(results, hourlyRate, monthlySubscriptionCost, wordsSpoken,
                                     speakingWpm, typingWpm, dailyWords, render);
      && |lines| == (if HasBreakEven(results.summary) then 25 else 23)
      && lines[|lines| - 2]
         == if HasBreakEven(results.summary)
            then DailyRequirementLine(render(results.summary.wordsToBreakEven.value / DaysPerMonth, Fixed(0)),
                                      render(results.summary.minutesToBreakEven / DaysPerMonth, Fixed(1)))
            else AdvisoryImprove
  {
    var opening := OpeningLines(results.summary, hourlyRate, monthlySubscriptionCost,
                                wordsSpoken, speakingWpm, typingWpm, render);
    var analysed := WithBreakEvenLines(opening, results.summary, render);
    var shown := ShownDailyWords(results.summary, dailyWords, render);
    var annual := WithAnnualLines(analysed, results.annualData, shown, hourlyRate, render);
    OpeningLinesShape(results.summary, hourlyRate, monthlySubscriptionCost, wordsSpoken, speakingWpm, typingWpm, render);
    BreakEvenLinesShape(opening, results.summary, render);
    AnnualLinesShape(analysed, results.annualData, shown, hourlyRate, render);
  }

  /**
    The calculator's sample run: the complete savings, then the report with
    the tier table's monthly cost. Whenever the calculation succeeds the report
    does too; it always takes the break-even branch (the word count is never
    infinite, even for a slower speaker), and its annual header shows the
    break-even words spread over a month, not the daily words passed in.
  */
  method AnalyzeSession(wordsSpoken: nat, speakingWpm: real, typingWpm: real, subscriptionType: string,
                        hourlyRate: real, dailyWords: nat, render: (real, NumFormat) -> string)
    returns (r: Result<string, Error>, output: seq<string>)
    ensures r.Failure? <==>
      CompleteSavings(wordsSpoken, speakingWpm, typingWpm, subscriptionType, hourlyRate, dailyWords).Failure?
    ensures r.Failure? ==>
      r.error == CompleteSavings(wordsSpoken, speakingWpm, typingWpm, subscriptionType, hourlyRate, dailyWords).error
    ensures r.Success? ==>
      var s := CompleteSavings(wordsSpoken, speakingWpm, typingWpm, subscriptionType, hourlyRate, dailyWords).value.summary;
      && |output| == 34
      && output[14] == SubscriptionLabel + DisplayName(subscriptionType)
      && output[20] == BreakEvenWordsLine(render(s.wordsToBreakEven.value, GroupedFixed(0)))
      && output[25] == AnnualHeader(render(s.wordsToBreakEven.value / DaysPerMonth, Plain))
    ensures r.Success? ==>
      && output == ReportLines(CompleteSavings(wordsSpoken, speakingWpm, typingWpm, subscriptionType, hourlyRate, dailyWords).value,
                               hourlyRate, MonthlyCost(LookupTier(subscriptionType).value),
                               wordsSpoken, speakingWpm, typingWpm, dailyWords, render)
      && r.value == Join(output, "\n")
  {
    var results := CompleteSavings(wordsSpoken, speakingWpm, typingWpm, subscriptionType, hourlyRate, dailyWords);
    if results.Failure? {
      return Failure(results.error), [];
    }
    var monthlyCost := MonthlyCost(LookupTier(subscriptionType).value);
    r, output := FormatResults(results.value, hourlyRate, monthlyCost, wordsSpoken,
                               speakingWpm, typingWpm, dailyWords, render);
    ReportLineCount(results.value, hourlyRate, monthlyCost, wordsSpoken, speakingWpm, typingWpm, dailyWords, render);
    ReportShowsPlan(results.value, hourlyRate, monthlyCost, wordsSpoken, speakingWpm, typingWpm, dailyWords, render);
    ReportBreakEvenLines(results.value, hourlyRate, monthlyCost, wordsSpoken, speakingWpm, typingWpm, dailyWords, render);
    ReportAnnualBlock(results.value, hourlyRate, monthlyCost, wordsSpoken, speakingWpm, typingWpm, dailyWords, render);
  }
}
