/**
  `OCRExtractor.parse_metrics`: two independent, case-insensitive, leftmost
  regular-expression searches over the recognised text, `(\d+)\s*words?` for
  the word count and `(\d+)\s*WPM?` for the speaking rate, each giving the
  integer value of the digit group or nothing.

  The search is modelled as a scan: a match starts at a digit, takes the
  maximal digit run, skips the maximal run of whitespace after it and then
  needs the unit ("word" or "wp", in any case). The trailing optional `s` and
  `M` never decide whether a match exists nor what the group holds, so they
  are not part of the unit.
*/
module OcrExtractor {
  import opened Wrappers
  import opened Numerals

  /** The unit text of the word-count pattern, in lower case. */
  const WordsUnit: string := "word"
  /** The unit text of the speaking-rate pattern, in lower case. */
  const RateUnit: string := "wp"

  /**
    `\s` of a `str` pattern: the characters `str.isspace()` accepts, which is
    the ASCII whitespace, the information separators U+001C to U+001F, and
    the Unicode spaces and line and paragraph separators.
  */
  predicate IsSpace(c: char) {
    || c == ' ' || ('\t' <= c <= '\r')
    || ('\U{1C}' <= c <= '\U{1F}')
    || c == '\U{85}' || c == '\U{A0}' || c == '\U{1680}'
    || ('\U{2000}' <= c <= '\U{200A}')
    || c == '\U{2028}' || c == '\U{2029}' || c == '\U{202F}' || c == '\U{205F}' || c == '\U{3000}'
  }

  predicate AllSpace(s: string) {
    forall i :: 0 <= i < |s| ==> IsSpace(s[i])
  }

  /** A unit text: non-empty lower-case ASCII letters. */
  predicate IsUnit(unit: string) {
    |unit| > 0 && forall i :: 0 <= i < |unit| ==> 'a' <= unit[i] <= 'z'
  }

  /** `c` matches the lower-case letter `letter` when case is ignored. */
  predicate LetterMatches(c: char, letter: char)
    requires 'a' <= letter <= 'z'
  {
    c == letter || c == (letter as int - 32) as char
  }

  /** The unit occurs at position `k` of `s`, ignoring case. */
  predicate UnitAt(s: string, k: nat, unit: string)
    requires IsUnit(unit)
  {
    k + |unit| <= |s| && forall m :: 0 <= m < |unit| ==> LetterMatches(s[k + m], unit[m])
  }

  /** Where the digit run starting at `i` ends: the first non-digit at or after `i`. */
  function RunEnd(s: string, i: nat): (j: nat)
    requires i <= |s|
    ensures i <= j <= |s|
    ensures AllDigits(s[i..j])
    ensures j == |s| || !IsDigit(s[j])
    decreases |s| - i
  {
    if i < |s| && IsDigit(s[i]) then RunEnd(s, i + 1) else i
  }

  /** Where the whitespace starting at `j` ends: the first non-space at or after `j`. */
  function SkipSpace(s: string, j: nat): (k: nat)
    requires j <= |s|
    ensures j <= k <= |s|
    ensures AllSpace(s[j..k])
    ensures k == |s| || !IsSpace(s[k])
    decreases |s| - j
  {
    if j < |s| && IsSpace(s[j]) then SkipSpace(s, j + 1) else j
  }

  /** The scan finds a match starting at `i`: a digit run, whitespace, then the unit. */
  predicate MatchAt(s: string, i: nat, unit: string)
    requires IsUnit(unit)
  {
    i < |s| && IsDigit(s[i]) && UnitAt(s, SkipSpace(s, RunEnd(s, i)), unit)
  }

  /**
    The regular expression matches at `i` with the digit group `s[i..j]` and
    the whitespace `s[j..k]`, whatever backtracking chose `j` and `k`.
  */
  predicate RegexMatch(s: string, i: nat, j: nat, k: nat, unit: string)
    requires IsUnit(unit)
  {
    i < j <= k <= |s| && AllDigits(s[i..j]) && AllSpace(s[j..k]) && UnitAt(s, k, unit)
  }

  /**
    The scan and the regular expression agree: the scan's match is a regex
    match, and every regex match takes the whole digit run and all the
    whitespace after it, so backtracking can never find another group.
  */
  lemma MatchAtIsRegexMatch(s: string, i: nat, unit: string)
    requires IsUnit(unit) && i <= |s|
    ensures MatchAt(s, i, unit) ==> RegexMatch(s, i, RunEnd(s, i), SkipSpace(s, RunEnd(s, i)), unit)
  {
    if MatchAt(s, i, unit) {
      var j := RunEnd(s, i);
      assert s[i] == s[i..j][0] by {
        if j == i {
          assert false;
        }
      }
    }
  }

  lemma RegexMatchIsMatchAt(s: string, i: nat, j: nat, k: nat, unit: string)
    requires IsUnit(unit)
    requires RegexMatch(s, i, j, k, unit)
    ensures MatchAt(s, i, unit)
    ensures j == RunEnd(s, i) && k == SkipSpace(s, j)
  {
    assert IsDigit(s[i..j][0]);
    assert LetterMatches(s[k], unit[0]) by {
      assert UnitAt(s, k, unit);
    }
    assert !IsDigit(s[j]) by {
      if j < k {
        assert IsSpace(s[j..k][0]);
      }
    }
    DigitsRunTo(s, i, j);
    SpacesRunTo(s, j, k);
  }

  /** A digit run `s[i..j]` followed by a non-digit ends where `RunEnd` says. */
  lemma {:induction false} DigitsRunTo(s: string, i: nat, j: nat)
    requires i <= j < |s| && AllDigits(s[i..j]) && !IsDigit(s[j])
    ensures RunEnd(s, i) == j
    decreases j - i
  {
    if i < j {
      assert IsDigit(s[i..j][0]);
      assert s[i + 1..j] == s[i..j][1..];
      DigitsRunTo(s, i + 1, j);
    }
  }

  /** Whitespace `s[j..k]` followed by a non-space ends where `SkipSpace` says. */
  lemma {:induction false} SpacesRunTo(s: string, j: nat, k: nat)
    requires j <= k < |s| && AllSpace(s[j..k]) && !IsSpace(s[k])
    ensures SkipSpace(s, j) == k
    decreases k - j
  {
    if j < k {
      assert IsSpace(s[j..k][0]);
      assert s[j + 1..k] == s[j..k][1..];
      SpacesRunTo(s, j + 1, k);
    }
  }

  /**
    The leftmost match at or after `from`: `re.search` tries each start
    position in turn and stops at the first one where the pattern matches.
  */
  function FindFrom(s: string, unit: string, from: nat): (r: Option<nat>)
    requires IsUnit(unit) && from <= |s|
    ensures r.Some? ==> from <= r.value < |s| && MatchAt(s, r.value, unit)
    ensures r.Some? ==> forall p :: from <= p < r.value ==> !MatchAt(s, p, unit)
    ensures r.None? ==> forall p :: from <= p < |s| ==> !MatchAt(s, p, unit)
    decreases |s| - from
  {
    if from == |s| then None
    else if MatchAt(s, from, unit) then Some(from)
    else FindFrom(s, unit, from + 1)
  }

  /** The pattern matches nowhere in `s`. */
  ghost predicate NoMatch(s: string, unit: string)
    requires IsUnit(unit)
  {
    forall i: nat, j: nat, k: nat :: !RegexMatch(s, i, j, k, unit)
  }

  /** The pattern matches at `i` with group `s[i..j]`, and no match starts earlier. */
  ghost predicate IsLeftmostMatch(s: string, unit: string, i: nat, j: nat, k: nat)
    requires IsUnit(unit)
  {
    RegexMatch(s, i, j, k, unit) && forall p: nat, j': nat, k': nat :: p < i ==> !RegexMatch(s, p, j', k', unit)
  }

  /** The scan finds nothing exactly when the pattern matches nowhere. */
  lemma ScanNoneIffNoMatch(s: string, unit: string)
    requires IsUnit(unit)
    ensures FindFrom(s, unit, 0).None? <==> NoMatch(s, unit)
  {
    if FindFrom(s, unit, 0).None? {
      forall i: nat, j: nat, k: nat | RegexMatch(s, i, j, k, unit) ensures false {
        RegexMatchIsMatchAt(s, i, j, k, unit);
      }
    } else {
      MatchAtIsRegexMatch(s, FindFrom(s, unit, 0).value, unit);
    }
  }

  /** What the scan finds is the leftmost match of the pattern, with the whole digit run as its group. */
  lemma ScanMatchIsLeftmost(s: string, unit: string)
    requires IsUnit(unit) && FindFrom(s, unit, 0).Some?
    ensures var i := FindFrom(s, unit, 0).value;
            IsLeftmostMatch(s, unit, i, RunEnd(s, i), SkipSpace(s, RunEnd(s, i)))
  {
    var i := FindFrom(s, unit, 0).value;
    MatchAtIsRegexMatch(s, i, unit);
    forall p: nat, j': nat, k': nat | p < i && RegexMatch(s, p, j', k', unit) ensures false {
      RegexMatchIsMatchAt(s, p, j', k', unit);
    }
  }

  /** Every leftmost match of the pattern is where the scan stops, and its group is the digit run there. */
  lemma ScanFindsLeftmost(s: string, unit: string)
    requires IsUnit(unit)
    ensures forall i: nat, j: nat, k: nat :: IsLeftmostMatch(s, unit, i, j, k) ==>
      FindFrom(s, unit, 0) == Some(i) && j == RunEnd(s, i)
  {
    forall i: nat, j: nat, k: nat | IsLeftmostMatch(s, unit, i, j, k)
      ensures FindFrom(s, unit, 0) == Some(i) && j == RunEnd(s, i)
    {
      RegexMatchIsMatchAt(s, i, j, k, unit);
      var r := FindFrom(s, unit, 0);
      assert r.Some?;
      if r.value < i {
        MatchAtIsRegexMatch(s, r.value, unit);
        assert false;
      }
    }
  }

  /**
    One `re.search` followed by `int(match.group(1))`: nothing when the
    pattern matches nowhere, and otherwise the decimal value of the digit
    group of the leftmost match.
  */
  function Find(s: string, unit: string): (r: Option<nat>)
    requires IsUnit(unit)
    ensures r.None? <==> NoMatch(s, unit)
    ensures r.Some? ==> exists i: nat, j: nat, k: nat ::
      IsLeftmostMatch(s, unit, i, j, k) && r.value == DecimalValue(s[i..j])
    ensures forall i: nat, j: nat, k: nat :: IsLeftmostMatch(s, unit, i, j, k) ==>
      r == Some(DecimalValue(s[i..j]))
  {
    ScanNoneIffNoMatch(s, unit);
    ScanFindsLeftmost(s, unit);
    match FindFrom(s, unit, 0)
    case None => None
    case Some(i) =>
      ScanMatchIsLeftmost(s, unit);
      Some(DecimalValue(s[i..RunEnd(s, i)]))
  }

  /**
    `parse_metrics`: the word count and the speaking rate, each the result of
    its own search over the whole text.
  */
  function ParseMetrics(text: string): (r: (Option<nat>, Option<nat>))
    ensures r.0.None? <==> NoMatch(text, WordsUnit)
    ensures r.1.None? <==> NoMatch(text, RateUnit)
    ensures forall i: nat, j: nat, k: nat :: IsLeftmostMatch(text, WordsUnit, i, j, k) ==>
      r.0 == Some(DecimalValue(text[i..j]))
    ensures forall i: nat, j: nat, k: nat :: IsLeftmostMatch(text, RateUnit, i, j, k) ==>
      r.1 == Some(DecimalValue(text[i..j]))
  {
    (Find(text, WordsUnit), Find(text, RateUnit))
  }

  // ---------------------------------------------------------------------
  // What a search finds

  /**
    The match a search reports starts a maximal digit run: the character
    before it is not a digit, so the number is never the tail of a longer one.
  */
  lemma FoundRunIsMaximal(s: string, unit: string)
    requires IsUnit(unit) && FindFrom(s, unit, 0).Some?
    ensures var i := FindFrom(s, unit, 0).value;
            i == 0 || !IsDigit(s[i - 1])
  {
    var i := FindFrom(s, unit, 0).value;
    if i > 0 && IsDigit(s[i - 1]) {
      assert RunEnd(s, i - 1) == RunEnd(s, i);
      assert MatchAt(s, i - 1, unit);
      assert false;
    }
  }

  /**
    Text appended after the leftmost match does not change what a search
    finds: the match, and every earlier non-match, lies inside the prefix.
  */
  lemma FoundSurvivesAppend(s: string, t: string, unit: string)
    requires IsUnit(unit) && Find(s, unit).Some?
    ensures Find(s + t, unit) == Find(s, unit)
  {
    var i := FindFrom(s, unit, 0).value;
    var j := RunEnd(s, i);
    var k := SkipSpace(s, j);
    MatchAtIsRegexMatch(s, i, unit);
    RegexMatchExtends(s, t, unit, i, j, k);
    forall p: nat, j': nat, k': nat | p < i && RegexMatch(s + t, p, j', k', unit) ensures false {
      EarlierMatchInPrefix(s, t, unit, i, j, k, p, j', k');
      RegexMatchIsMatchAt(s, p, j', k', unit);
    }
    assert IsLeftmostMatch(s + t, unit, i, j, k);
    assert (s + t)[i..j] == s[i..j];
  }

  /** A match stays a match when text is appended. */
  lemma RegexMatchExtends(s: string, t: string, unit: string, i: nat, j: nat, k: nat)
    requires IsUnit(unit) && RegexMatch(s, i, j, k, unit)
    ensures RegexMatch(s + t, i, j, k, unit)
  {
    var st := s + t;
    assert st[i..j] == s[i..j];
    assert st[j..k] == s[j..k];
    forall m | 0 <= m < |unit| ensures LetterMatches(st[k + m], unit[m]) {
      assert st[k + m] == s[k + m];
    }
  }

  /**
    A match of the extended text that starts before a match of the prefix
    lies inside the prefix.
  */
  lemma EarlierMatchInPrefix(s: string, t: string, unit: string, i: nat, j: nat, k: nat,
                             p: nat, j': nat, k': nat)
    requires IsUnit(unit) && RegexMatch(s, i, j, k, unit)
    requires p < i && RegexMatch(s + t, p, j', k', unit)
    ensures RegexMatch(s, p, j', k', unit)
  {
    var st := s + t;
    RegexMatchExtends(s, t, unit, i, j, k);
    EarlierMatchEndsBefore(st, unit, i, j, k, p, j', k');
    assert k' + |unit| <= |s|;
    assert s[p..j'] == st[p..j'];
    assert s[j'..k'] == st[j'..k'];
    forall m | 0 <= m < |unit| ensures LetterMatches(s[k' + m], unit[m]) {
      assert UnitAt(st, k', unit);
      assert st[k' + m] == s[k' + m];
    }
  }

  /**
    Of two matches, the earlier one either ends its whitespace before the
    later one starts, or shares its digit run and so is the same match from
    the run's end on.
  */
  lemma EarlierMatchEndsBefore(s: string, unit: string, i: nat, j: nat, k: nat, p: nat, j': nat, k': nat)
    requires IsUnit(unit) && RegexMatch(s, i, j, k, unit)
    requires p < i && RegexMatch(s, p, j', k', unit)
    ensures k' <= i || (j' == j && k' == k)
  {
    RegexMatchIsMatchAt(s, p, j', k', unit);
    RegexMatchIsMatchAt(s, i, j, k, unit);
    assert IsDigit(s[i]) by {
      assert s[i] == s[i..j][0];
    }
    if j' > i {
      SharedRun(s, p, i, j');
    } else {
      SpaceStopsAtDigit(s, i, j', k');
    }
  }

  /** Two starts inside one digit run see the same run end. */
  lemma SharedRun(s: string, p: nat, i: nat, j: nat)
    requires p < i < j <= |s| && AllDigits(s[p..j])
    ensures RunEnd(s, p) == RunEnd(s, i)
  {
    assert s[p..i + 1] == s[p..j][..i + 1 - p];
    RunEndFromInside(s, p, i);
  }

  /** Whitespace starting at or before a digit ends at or before it. */
  lemma SpaceStopsAtDigit(s: string, i: nat, j: nat, k: nat)
    requires j <= i < |s| && IsDigit(s[i]) && j <= k <= |s| && AllSpace(s[j..k])
    ensures k <= i
  {
  }

  /** Starting a digit run anywhere inside it does not move its end. */
  lemma {:induction false} RunEndFromInside(s: string, p: nat, i: nat)
    requires p <= i < |s| && AllDigits(s[p..i + 1])
    ensures RunEnd(s, p) == RunEnd(s, i)
    decreases i - p
  {
    if p < i {
      assert IsDigit(s[p..i + 1][0]);
      assert s[p + 1..i + 1] == s[p..i + 1][1..];
      RunEndFromInside(s, p + 1, i);
    }
  }

  // ---------------------------------------------------------------------
  // The two metrics

  /**
    A run of digits, then optional whitespace, then the unit in any mix of
    cases, at the start of the text is read as the value of those digits.
  */
  lemma DigitsThenUnitFound(digits: string, gap: string, spelled: string, unit: string, rest: string)
    requires IsUnit(unit) && |digits| > 0 && AllDigits(digits)
    requires AllSpace(gap) && |spelled| == |unit| && UnitAt(spelled, 0, unit)
    ensures Find(digits + gap + spelled + rest, unit) == Some(DecimalValue(digits))
  {
    var s := digits + gap + spelled + rest;
    var j := |digits|;
    var k := j + |gap|;
    assert s[0..j] == digits;
    assert s[j..k] == gap;
    UnitAfterPrefix(digits + gap, spelled, rest, unit);
    MatchAtStartFound(s, unit, j, k);
  }

  /** The unit spelled out after a prefix occurs right where the prefix ends. */
  lemma UnitAfterPrefix(prefix: string, spelled: string, rest: string, unit: string)
    requires IsUnit(unit) && |spelled| == |unit| && UnitAt(spelled, 0, unit)
    ensures UnitAt(prefix + spelled + rest, |prefix|, unit)
  {
    var s := prefix + spelled + rest;
    forall m | 0 <= m < |unit| ensures LetterMatches(s[|prefix| + m], unit[m]) {
      assert s[|prefix| + m] == spelled[m];
    }
  }

  /** A match at the very start of the text is the leftmost one, so a search gives its group. */
  lemma MatchAtStartFound(s: string, unit: string, j: nat, k: nat)
    requires IsUnit(unit) && RegexMatch(s, 0, j, k, unit)
    ensures Find(s, unit) == Some(DecimalValue(s[0..j]))
  {
    assert IsLeftmostMatch(s, unit, 0, j, k);
  }

  /**
    A number written out in decimal, then optional whitespace, then the unit in
    any mix of cases, is read back.
  */
  lemma NumberThenUnitRoundTrip(n: nat, gap: string, spelled: string, unit: string, rest: string)
    requires IsUnit(unit) && AllSpace(gap) && |spelled| == |unit| && UnitAt(spelled, 0, unit)
    ensures Find(NatToString(n) + gap + spelled + rest, unit) == Some(n)
  {
    DigitsThenUnitFound(NatToString(n), gap, spelled, unit, rest);
    DecimalValueOfNatToString(n);
  }

  /** A number padded with a leading zero is read back all the same. */
  lemma ZeroPaddedNumberRoundTrip(n: nat, gap: string, spelled: string, unit: string, rest: string)
    requires IsUnit(unit) && AllSpace(gap) && |spelled| == |unit| && UnitAt(spelled, 0, unit)
    ensures Find("0" + NatToString(n) + gap + spelled + rest, unit) == Some(n)
  {
    DecimalValueIgnoresLeadingZero(NatToString(n));
    DigitsThenUnitFound("0" + NatToString(n), gap, spelled, unit, rest);
    DecimalValueOfNatToString(n);
  }

  /** A leading zero is ignored: "0372 words" gives 372 words. */
  lemma WordsWithLeadingZero()
    ensures ParseMetrics("0372 words").0 == Some(372)
  {
    assert "0372 words" == "0" + NatToString(372) + " " + WordsUnit + "s";
    ZeroPaddedNumberRoundTrip(372, " ", WordsUnit, WordsUnit, "s");
  }

  /** With no space between number and unit: "372words" gives 372 words. */
  lemma WordsWithoutSpace()
    ensures ParseMetrics("372words").0 == Some(372)
  {
    assert "372words" == NatToString(372) + "" + WordsUnit + "s";
    NumberThenUnitRoundTrip(372, "", WordsUnit, WordsUnit, "s");
  }

  /** The final `M` is optional: "124 wp" gives a rate of 124. */
  lemma RateWithoutM()
    ensures ParseMetrics("124 wp").1 == Some(124)
  {
    assert "124 wp" == NatToString(124) + " " + RateUnit + "";
    NumberThenUnitRoundTrip(124, " ", RateUnit, RateUnit, "");
  }

  /** "124 wpm" gives a rate of 124. */
  lemma RateLowerCase()
    ensures ParseMetrics("124 wpm").1 == Some(124)
  {
    assert "124 wpm" == NatToString(124) + " " + RateUnit + "m";
    NumberThenUnitRoundTrip(124, " ", RateUnit, RateUnit, "m");
  }

  /** Case is ignored: "124 WPM" gives a rate of 124. */
  lemma RateUpperCase()
    ensures ParseMetrics("124 WPM").1 == Some(124)
  {
    assert "124 WPM" == NatToString(124) + " " + "WP" + "M";
    assert UnitAt("WP", 0, RateUnit);
    NumberThenUnitRoundTrip(124, " ", "WP", RateUnit, "M");
  }
}
