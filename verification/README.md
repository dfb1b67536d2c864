# WisprFlow savings calculator and metric parser, in Dafny

This project models the computational core of a small tool. The tool reads a
voice-dictation app's statistics (words spoken, speaking rate) off a
screenshot and tells the user whether the subscription pays for itself.

The model has two parts:

- **`SavingsCalculator`** (`calculator.py`):
  - the three-entry tier table (student 7.00, pro_monthly 15.00,
    pro_annually 12.00 per month);
  - the single-session figures and the break-even analysis
    (`calculate_complete_savings`);
  - the annual projection (`calculate_annual_savings`);
  - the text report (`format_results`).
- **`OCRExtractor.parse_metrics`** (`ocr_extractor.py`): the two
  case-insensitive regular-expression searches, `(\d+)\s*words?` and
  `(\d+)\s*WPM?`, that pull the word count and the speaking rate out of the
  recognised text.

Modules:

- `Wrappers` (`wrappers.dfy`): `Option` and `Result`.
- `Numerals` (`numerals.dfy`): ASCII decimal text, i.e. Python's `int()` of a
  digit string and `str()` of a non-negative int, and their round trip.
- `Calculator` (`calculator.dfy`): the tier table, `AnnualSavings`,
  `Session` and `CompleteSavings`, with lemmas relating their figures.
  - Quantities are exact `real`s; word counts are `nat`.
  - A Python exception is a `Failure` carrying the matching `Error`:
    `DivisionByZero` for `ZeroDivisionError`, `UnknownSubscription` for the
    `KeyError` of the tier table.
  - Failures come in Python's evaluation order: a zero speed first, then an
    unknown tier, then a zero value per word.
- `SavingsReport` (`report.dfy`): `format_results` as imperative methods.
  - The methods append to the `output` list line by line, including the
    reassignment of the local `daily_words` in the break-even branch.
  - Each method is proved equal to a specification function (`OpeningLines`,
    `WithBreakEvenLines`, `WithAnnualLines`, `ReportLines`).
  - Lemmas state the report's structure.
  - Numbers are turned into text by a `render` parameter, one per format
    specification (`NumFormat`). Integers are rendered with
    `Numerals.NatToString`.
  - `str.replace('_', ' ').title()` and `"\n".join` are modelled exactly,
    for ASCII.
  - `AnalyzeSession` is the wiring of `test_calculator`.
- `OcrExtractor` (`ocr.dfy`): `parse_metrics` as two leftmost scans
  (`FindFrom`), each followed by `int()` of the digit group (`Find`).
  - A scan position matches when it starts a maximal digit run, followed by
    the maximal run of whitespace, followed by the unit (`word` or `wp`) in
    any case.
  - Lemmas prove this equal to the regular expression with backtracking
    (`RegexMatch`). The contract of `Find` states what a search gives in terms
    of that regular expression: nothing exactly when it matches nowhere, and
    otherwise the value of the leftmost match's digit group.
  - Further lemmas: maximality of the run, and stability under appended
    text.

Where the code's own parts disagree, the model follows what the code does:

- **Break-even is never infinite.** The report tests the break-even count
  against `float('inf')` and has a "cannot break even" advisory for that case
  (`calculator.py:140-151`). So the report expects an infinite count when
  speaking is not faster than typing.
  - The count itself comes from a division by the value per word
    (`calculator.py:91`). That division either raises `ZeroDivisionError` or
    gives a finite number. With equal speeds or a zero hourly rate it raises;
    with a slower speaker the number is negative.
  - `CompleteSavings` fails in the first case and returns the negative count
    in the second (`BreakEvenSign`).
  - The report's advisory branch is kept, but no completed calculation
    reaches it (`AnalyzeSession`).
- **`daily_words` is required.** The code's default `None` fails at
  `calculator.py:18`.
- **The annual header does not show the caller's daily words** after the
  break-even branch ran: `calculator.py:146` overwrote them with the
  break-even words over 30 days (`ShownDailyWords`, `AnalyzeSession`).

## Model

| member | source | states |
|---|---|---|
| Numerals.NatToString | calculator.py:124 | `str()` of a non-negative int is non-empty, all ASCII digits, has no leading zero, and is one character exactly for n < 10 |
| Numerals.DecimalValue | ocr_extractor.py:21 | `int()` of a digit string is a natural number, zero exactly when every digit is `0` |
| Numerals.DecimalValueOfNatToString | ocr_extractor.py:21 | `int(str(n)) == n`: reading back the decimal text of a number gives the number |
| Numerals.DecimalValueIgnoresLeadingZero | ocr_extractor.py:21 | `int()` of a digit group ignores a leading zero ("0372" reads as 372) |
| Calculator.TierKey | calculator.py:4-8 | every key of the tier table is non-empty and made of lower-case letters and underscores |
| Calculator.TierKeyRoundTrip | calculator.py:4-8 | looking up a tier's own key finds that tier |
| Calculator.MonthlyCost | calculator.py:4-8 | every tier's monthly cost is positive, so no division by a tier cost can fail |
| Calculator.LookupTier | calculator.py:4-8 | the table lookup finds a tier exactly when the name is that tier's key, and nothing for any other name |
| Calculator.AnnualSavings | calculator.py:13-48 | fails with a division by zero on a zero speed, with an unknown-subscription error on a name outside the table, and otherwise succeeds with a yearly subscription cost of twelve months of the tier's price |
| Calculator.TimeSavedPerWord | calculator.py:83-85 | the minutes saved per word are zero exactly when the speaking and typing speeds are equal |
| Calculator.ReciprocalInjective | calculator.py:83-85 | two non-zero speeds with equal minutes per word are equal |
| Calculator.ValuePerWord | calculator.py:82-88 | the value saved per word is zero exactly when the two speeds are equal or the hourly rate is zero |
| Calculator.ValuePerWordZero | calculator.py:83-91 | the divisor of the break-even count is zero if and only if speaking and typing speeds agree or the hourly rate is zero |
| Calculator.Session | calculator.py:65-92 | the session summary records the plan name as given and a finite break-even word count |
| Calculator.CompleteSavings | calculator.py:50-110 | fails exactly on a zero speed, an unknown plan, equal speeds or a zero hourly rate, with the error Python raises first; on success the summary is the session figures of the looked-up tier, the break-even count is finite and the annual data is present and equals the annual projection |
| Calculator.AnnualCostIgnoresUsage | calculator.py:31 | the annual subscription cost depends on the tier alone, whatever the daily words, speeds or hourly rate |
| Calculator.AnnualFiguresConsistent | calculator.py:17-37 | the daily minutes saved are the daily words times the minutes saved per word; annual words are daily words times 365.25; annual hours times 60 are the annual words times the minutes saved per word; annual value is annual hours times the hourly rate and also daily value times 365.25; net is value minus subscription; the subscription cost is positive and ROI times the cost is net times 100 |
| Calculator.RoiSign | calculator.py:34-37 | ROI is positive exactly when the year's value exceeds the subscription, and zero exactly at parity |
| Calculator.ZeroDailyWords | calculator.py:18-37 | zero daily words give zero annual words, hours and value, a net of minus the subscription and an ROI of -100 % |
| Calculator.SessionTimes | calculator.py:65-85 | speaking time times speaking speed and typing time times typing speed give back the words; the time saved is typing minus speaking time and equals the words times the minutes saved per word |
| Calculator.PerWordSign | calculator.py:83-85 | with positive speeds, the minutes saved per word are positive exactly when speaking is faster and negative exactly when it is slower |
| Calculator.TimeSavedSign | calculator.py:66-72 | with positive speeds and at least one word, time is saved exactly when speaking is faster than typing and lost exactly when it is slower |
| Calculator.TwoValueNotions | calculator.py:76-88 | cost savings price the time saved at the tier's monthly cost per 60 minutes, while the value per word prices the minutes saved per word at the hourly rate per 60 minutes; words times value per word is the time saved priced at the hourly rate |
| Calculator.ValueNotionsIndependent | calculator.py:76-88 | cost savings do not depend on the hourly rate and the value per word does not depend on the tier |
| Calculator.BreakEvenRoundTrip | calculator.py:88-92 | break-even words times value per word is the tier's monthly cost, and break-even minutes times the speaking speed is the break-even word count |
| Calculator.BreakEvenSign | calculator.py:88-92 | with positive speeds and rate the break-even count is positive exactly when speaking is faster and negative exactly when it is slower (a finite number, never infinity) |
| Calculator.SessionLinearInWords | calculator.py:65-92 | speaking, typing and saved time and the cost savings are additive in the words spoken; break-even words, minutes and the value per word do not depend on them |
| Calculator.SummaryIgnoresDailyWords | calculator.py:94-110 | the daily words affect only the annual part: success and the session summary are the same for any daily figure |
| Calculator.SampleSession | calculator.py:181-192 | the sample session (372 words, 124 vs 90 WPM, pro_monthly, 50.49 an hour, 500 words a day) speaks for 3 minutes, types for 372/90, saves 17/15 minutes with cost savings of 17/60, breaks even at a positive count, and projects 182625 words and a 180.00 subscription a year |
| Calculator.UnknownTierFails | calculator.py:76 | with non-zero speeds, any plan name outside the table fails with the unknown-subscription error naming it |
| SavingsReport.ToUpper | calculator.py:134 | upper-casing maps a lower-case letter to the upper-case letter at the same place in the alphabet and leaves every other character alone |
| SavingsReport.ToLower | calculator.py:134 | lower-casing maps an upper-case letter to the lower-case letter at the same place in the alphabet and leaves every other character alone |
| SavingsReport.CaseRoundTrip | calculator.py:134 | lower-casing an upper-cased letter, or upper-casing a lower-cased one, gives the letter back |
| SavingsReport.ReplaceChar | calculator.py:134 | `replace('_', ' ')` keeps the length and changes exactly the positions holding the old character |
| SavingsReport.Title | calculator.py:134 | `title()` keeps the length and puts each character in lower case right after a cased letter and in upper case everywhere else |
| SavingsReport.DisplayName | calculator.py:134 | the plan's display name keeps the length, shows each underscore as a space and sets every other character as `title()` sets it in the name itself (underscores and spaces are both uncased) |
| SavingsReport.TitleFromAppend | calculator.py:134 | title-casing a concatenation is title-casing the first part, then the second part starting from whether the first part ended on a cased letter |
| SavingsReport.TitleOfLowerWord | calculator.py:134 | title-casing a lower-case word capitalises its first letter and keeps the rest |
| SavingsReport.DisplayNameOfWord | calculator.py:134 | a one-word plan name is shown capitalised |
| SavingsReport.DisplayNameOfTwoWords | calculator.py:134 | a plan name `first_second` is shown as both words capitalised with a space between |
| SavingsReport.StudentDisplayName | calculator.py:134 | the student plan is shown as "Student" |
| SavingsReport.ProMonthlyDisplayName | calculator.py:134 | the pro_monthly plan is shown as "Pro Monthly" |
| SavingsReport.ProAnnuallyDisplayName | calculator.py:134 | the pro_annually plan is shown as "Pro Annually" |
| SavingsReport.Join | calculator.py:170 | `sep.join` is empty for no lines and the line itself for one line; otherwise it begins with the first line and ends with the last |
| SavingsReport.JoinAppend | calculator.py:170 | joining one more line adds the separator and then that line, so neighbouring lines are always separated by `sep` |
| SavingsReport.ShownDailyWords | calculator.py:146-156 | the annual header shows the break-even words over 30 days when the break-even branch ran, and otherwise decimal text that reads back as the caller's daily words |
| SavingsReport.OpeningLinesShape | calculator.py:119-139 | the opening has 20 lines: rule, title and rule first, the words spoken on the fifth line, the subscription on the fifteenth and the break-even heading last |
| SavingsReport.BreakEvenLinesShape | calculator.py:140-151 | the break-even part keeps the earlier lines and adds four lines (words needed first, daily requirement last) when the count is not infinite, else the two advisory lines |
| SavingsReport.AnnualLinesShape | calculator.py:153-166 | the annual part keeps the earlier lines and adds nine lines when there is annual data (blank, header with the shown daily words, ..., ROI, salary comparison), none otherwise |
| SavingsReport.AppendOpening | calculator.py:119-139 | appending the opening lines one by one to the empty list gives exactly `OpeningLines` |
| SavingsReport.AppendBreakEven | calculator.py:140-151 | the appended lines are `WithBreakEvenLines`, and the daily-words text becomes the break-even words over 30 in the break-even branch and is unchanged otherwise |
| SavingsReport.AppendAnnual | calculator.py:153-166 | fails with a division by zero exactly when there is annual data and the hourly rate is zero; otherwise appends exactly `WithAnnualLines` |
| SavingsReport.BuildLines | calculator.py:116-168 | fails exactly when there is annual data and a zero hourly rate; otherwise the list is `ReportLines` |
| SavingsReport.FormatResults | calculator.py:112-170 | fails exactly when there is annual data and a zero hourly rate; otherwise the lines are `ReportLines`, the text is their newline join, and it begins and ends with the 60-character rule |
| SavingsReport.JoinFramedByRules | calculator.py:168-170 | joining lines that begin and end with the rule gives text that begins and ends with the rule |
| SavingsReport.ReportLineCount | calculator.py:119-168 | a report has 20 opening lines, 4 break-even or 2 advisory lines, 9 annual lines when there is annual data, and the closing rule |
| SavingsReport.ReportFramedByRules | calculator.py:120-168 | the report's first three lines are rule, title, rule and its last line is the rule |
| SavingsReport.ReportShowsPlan | calculator.py:124-139 | line 5 shows the words spoken, line 15 the plan name with underscores as spaces in title case, line 20 the break-even heading |
| SavingsReport.ReportBreakEvenLines | calculator.py:140-148 | with a finite break-even count, line 21 gives the words needed and line 24 the daily requirement (words and minutes over 30 days) |
| SavingsReport.ReportAdvisoryLines | calculator.py:149-151 | with an infinite break-even count, lines 21 and 22 are the two advisory lines |
| SavingsReport.ReportAnnualBlock | calculator.py:153-166 | with annual data, the blank line, the annual header with the shown daily words, the ROI line and the salary comparison sit 10, 9, 3 and 2 lines from the end |
| SavingsReport.ReportWithoutAnnual | calculator.py:140-168 | without annual data the report has 25 or 23 lines and the daily requirement or the second advisory line precedes the closing rule |
| SavingsReport.AnalyzeSession | calculator.py:190-203 | the report fails exactly when the calculation does, with its error; otherwise the lines are `ReportLines` of the calculation's results with the looked-up tier's monthly cost, the text is their newline join, and the report has 34 lines, shows the plan's display name, always takes the break-even branch, and its annual header shows the break-even words over 30 instead of the daily words passed in |
| OcrExtractor.RunEnd | ocr_extractor.py:19 | `\d+` is greedy: the run from `i` is all digits and ends at the end of the text or at a non-digit |
| OcrExtractor.SkipSpace | ocr_extractor.py:19 | `\s*` is greedy: the run from `j` is all whitespace and ends at the end of the text or at a non-space |
| OcrExtractor.MatchAtIsRegexMatch | ocr_extractor.py:19 | a scan match at `i` is a match of the regular expression with the maximal digit and whitespace runs |
| OcrExtractor.RegexMatchIsMatchAt | ocr_extractor.py:19 | every match of the regular expression, whatever the backtracking, takes the whole digit run and all whitespace after it, and is a scan match |
| OcrExtractor.FindFrom | ocr_extractor.py:19 | `re.search` reports a matching position at or after the start with no match before it, or nothing when no position at or after the start matches |
| OcrExtractor.ScanNoneIffNoMatch | ocr_extractor.py:19 | the leftmost scan finds nothing exactly when the regular expression matches nowhere |
| OcrExtractor.ScanMatchIsLeftmost | ocr_extractor.py:19 | the position the scan finds is the leftmost match of the regular expression, with the whole digit run as its group |
| OcrExtractor.ScanFindsLeftmost | ocr_extractor.py:19 | every leftmost match of the regular expression is where the scan stops, and its group is the digit run there |
| OcrExtractor.Find | ocr_extractor.py:19-21 | `re.search` then `int(group(1))` gives nothing exactly when the pattern matches nowhere; otherwise the decimal value of the digit group of the leftmost match, and any leftmost match determines that value |
| OcrExtractor.FoundRunIsMaximal | ocr_extractor.py:19 | the reported number starts a maximal digit run: it is never the tail of a longer number |
| OcrExtractor.FoundSurvivesAppend | ocr_extractor.py:19-21 | appending text to the end does not change the result of a search that already found a number |
| OcrExtractor.ParseMetrics | ocr_extractor.py:18-27 | each result is its own search over the whole text: the word count is absent exactly when `(\d+)\s*words?` matches nowhere and is otherwise the value of its leftmost match's digit group; likewise the rate for `(\d+)\s*WPM?` |
| OcrExtractor.DigitsThenUnitFound | ocr_extractor.py:19-25 | digits at the start of the text, optional whitespace, then the unit in any mix of cases, are read as `int()` of those digits |
| OcrExtractor.NumberThenUnitRoundTrip | ocr_extractor.py:19-25 | a number in decimal, optional whitespace, then the unit in any mix of cases, then anything, is read back as that number |
| OcrExtractor.ZeroPaddedNumberRoundTrip | ocr_extractor.py:19-21 | a number written with a leading zero before the unit is read back as the number |
| OcrExtractor.WordsWithLeadingZero | ocr_extractor.py:19-21 | "0372 words" gives 372 words |
| OcrExtractor.WordsWithoutSpace | ocr_extractor.py:19-21 | "372words" gives 372 words |
| OcrExtractor.RateWithoutM | ocr_extractor.py:23-25 | "124 wp" gives a rate of 124 |
| OcrExtractor.RateLowerCase | ocr_extractor.py:23-25 | "124 wpm" gives a rate of 124 |
| OcrExtractor.RateUpperCase | ocr_extractor.py:23-25 | "124 WPM" gives a rate of 124 |

## Left out

- Floating point: every quantity is an exact real, so the identities above
  hold exactly. IEEE rounding, `inf` arising from overflow, NaN and negative
  zero are not modelled.
- Number formatting (`:.2f`, `:,.0f`, `:,`, `str()` of a float, and so on)
  is the uninterpreted `render` parameter. The report's numeric text,
  including the salary percentage, is therefore not checked digit by digit.
- Python's default arguments are not modelled: every argument is given. The
  `hourly_rate=25.0` default is not modelled, and `daily_words=None` is not
  allowed since it always fails.
- `minutes_per_month` (`calculator.py:11`) is computed but never used, so it
  is not modelled.
- `test_calculator`'s printing is left out; `AnalyzeSession` models only its
  two calls.
- SavingsReport.FormatResults: the single Python method is split into
  `AppendOpening`, `AppendBreakEven`, `AppendAnnual` and `BuildLines`. On
  failure the output list it returns is empty rather than the partly built
  list; Python discards that list by raising.
- The report's arguments are not type-checked. `speaking_wpm` and
  `typing_wpm` are rendered with `render(_, Plain)` whether the caller passed
  an int or a float.
- `str.title()` and the case-insensitive match are modelled for ASCII letters
  only. Title-casing of non-ASCII cased letters (plan names are ASCII keys) is
  not modelled, and neither are Unicode case folds.
- OcrExtractor.RunEnd: `\d` of a Python `str` pattern also matches non-ASCII
  decimal digits (category Nd). The model accepts ASCII digits only.
- OcrExtractor.Find: CPython 3.11 and later refuse `int()` of a digit string
  longer than 4300 characters by default (`ValueError`; the limit depends on
  the version and can be configured with `sys.set_int_max_str_digits`). The
  model reads digit groups of any length, so `Find`, `ParseMetrics`,
  `DigitsThenUnitFound`, `NumberThenUnitRoundTrip`,
  `ZeroPaddedNumberRoundTrip` and `DecimalValueOfNatToString` claim a value
  where such an interpreter raises.
- `OCRExtractor.__init__`, `extract_text_from_image` and `extract_metrics`
  (`ocr_extractor.py:6-16`, `29-37`) configure and call Tesseract on an
  image. That is foreign code and I/O.
- `window_capture.py` is not part of this model: window lookup and
  screenshots through UI libraries, plus cropping of a library image object.
- `main.py` is not part of this model: settings file, prompts and
  orchestration. Its call of `test_calculator` with keyword arguments, which
  that function does not accept, is not modelled.
- `setup.py` is not part of this model: package installation through
  external commands.
