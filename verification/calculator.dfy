/**
  The savings arithmetic of `SavingsCalculator`: a closed table of subscription
  tiers, the per-session figures with the break-even analysis, and the annual
  projection. Every quantity is an exact `real`; word counts are `nat`.
  A Python exception (a division by zero, a missing dictionary key) becomes a
  `Failure` carrying the matching `Error`.
*/
module Calculator {
  import opened Wrappers

  /** The three subscription plans of the tier table. */
  datatype Tier = Student | ProMonthly | ProAnnually

  /** Why a calculation aborts instead of returning figures. */
  datatype Error =
    | DivisionByZero                     // a divisor evaluated to zero
    | UnknownSubscription(name: string)  // the tier table has no such key

  /** A float as the report compares it: finite, or positive infinity. */
  datatype ExtReal = Finite(value: real) | Infinity

  /** The annual projection, one field per key of the returned dictionary. */
  datatype AnnualData = AnnualData(
    dailyTimeSavedMinutes: real,
    dailyValueSaved: real,
    annualWords: real,
    annualTimeSavedHours: real,
    annualValueSaved: real,
    annualSubscriptionCost: real,
    netAnnualSavings: real,
    roiPercentage: real)

  /** The single-session figures, one field per key of the 'summary' dictionary. */
  datatype SessionSummary = SessionSummary(
    speakingTimeMinutes: real,
    typingTimeMinutes: real,
    timeSavedMinutes: real,
    costSavings: real,
    wordsToBreakEven: ExtReal,
    minutesToBreakEven: real,
    valueSavedPerWord: real,
    subscriptionType: string)

  /** What the complete calculation returns; the report treats a missing annual part as absent. */
  datatype Results = Results(annualData: Option<AnnualData>, summary: SessionSummary)

  /** Average days per year, leap years included. */
  const DaysPerYear: real := 365.25
  const MinutesPerHour: real := 60.0
  const MonthsPerYear: real := 12.0

  /** The key under which the tier table stores a tier: lower-case words joined by underscores. */
  function TierKey(t: Tier): (k: string)
    ensures |k| > 0 && forall i :: 0 <= i < |k| ==> 'a' <= k[i] <= 'z' || k[i] == '_'
  {
    match t
    case Student => "student"
    case ProMonthly => "pro_monthly"
    case ProAnnually => "pro_annually"
  }

  /** The monthly price of a tier. */
  function MonthlyCost(t: Tier): (c: real)
    ensures c > 0.0
  {
    match t
    case Student => 7.0
    case ProMonthly => 15.0
    case ProAnnually => 12.0
  }

  /** Looks a subscription name up in the tier table; an unknown key finds nothing. */
  function LookupTier(name: string): (r: Option<Tier>)
    ensures r.Some? ==> TierKey(r.value) == name
    ensures r.None? ==> forall t: Tier :: TierKey(t) != name
  {
    if name == "student" then Some(Student)
    else if name == "pro_monthly" then Some(ProMonthly)
    else if name == "pro_annually" then Some(ProAnnually)
    else None
  }

  /** Looking up a tier's own key finds that tier. */
  lemma TierKeyRoundTrip(t: Tier)
    ensures LookupTier(TierKey(t)) == Some(t)
  {
  }

  /**
    Minutes saved per spoken word: typing time per word minus speaking time per
    word. Nothing is saved exactly when the two speeds are equal.
  */
  function TimeSavedPerWord(speakingWpm: real, typingWpm: real): (t: real)
    requires speakingWpm != 0.0 && typingWpm != 0.0
    ensures t == 0.0 <==> speakingWpm == typingWpm
  {
    ReciprocalInjective(speakingWpm, typingWpm);
    1.0 / typingWpm - 1.0 / speakingWpm
  }

  /** Different non-zero numbers have different reciprocals. */
  lemma ReciprocalInjective(a: real, b: real)
    requires a != 0.0 && b != 0.0
    ensures 1.0 / a == 1.0 / b ==> a == b
  {
    if 1.0 / a == 1.0 / b {
      assert a * b * (1.0 / b) == a;
      assert a * b * (1.0 / a) == b;
    }
  }

  /**
    Extrapolates `dailyWords` words a day over an average year. Fails like the
    source on a zero speed (the first divisions) and on an unknown tier.
  */
  function AnnualSavings(dailyWords: nat, speakingWpm: real, typingWpm: real,
                         subscriptionType: string, hourlyRate: real): (r: Result<AnnualData, Error>)
    ensures r.Failure? <==> speakingWpm == 0.0 || typingWpm == 0.0 || LookupTier(subscriptionType).None?
    ensures r.Failure? ==>
      r.error == if speakingWpm == 0.0 || typingWpm == 0.0 then DivisionByZero
                 else UnknownSubscription(subscriptionType)
    ensures r.Success? ==>
      r.value.annualSubscriptionCost == MonthlyCost(LookupTier(subscriptionType).value) * MonthsPerYear
  {
    if speakingWpm == 0.0 || typingWpm == 0.0 then Failure(DivisionByZero)
    else
      match LookupTier(subscriptionType)
      case None => Failure(UnknownSubscription(subscriptionType))
      case Some(tier) =>
        var daily := dailyWords as real;
        var dailySpeakingTime := daily / speakingWpm;
        var dailyTypingTime := daily / typingWpm;
        var dailyTimeSaved := dailyTypingTime - dailySpeakingTime;
        var dailyValueSaved := dailyTimeSaved * (hourlyRate / MinutesPerHour);
        var annualWords := daily * DaysPerYear;
        var annualTimeSavedHours := (dailyTimeSaved * DaysPerYear) / MinutesPerHour;
        var annualValueSaved := dailyValueSaved * DaysPerYear;
        var annualSubscriptionCost := MonthlyCost(tier) * MonthsPerYear;
        var netAnnualSavings := annualValueSaved - annualSubscriptionCost;
        var roiPercentage := (netAnnualSavings / annualSubscriptionCost) * 100.0;
        Success(AnnualData(dailyTimeSaved, dailyValueSaved, annualWords, annualTimeSavedHours,
                           annualValueSaved, annualSubscriptionCost, netAnnualSavings, roiPercentage))
  }

  /**
    Money saved per spoken word: the minutes saved per word priced at the hourly
    rate per sixty minutes. It is zero exactly when the speeds agree or the
    hourly rate is zero.
  */
  function ValuePerWord(speakingWpm: real, typingWpm: real, hourlyRate: real): (v: real)
    requires speakingWpm != 0.0 && typingWpm != 0.0
    ensures v == 0.0 <==> speakingWpm == typingWpm || hourlyRate == 0.0
  {
    ValuePerWordZero(speakingWpm, typingWpm, hourlyRate);
    TimeSavedPerWord(speakingWpm, typingWpm) * (hourlyRate / MinutesPerHour)
  }

  /** The session figures can be computed: no speed is zero and a word is worth something. */
  predicate SessionDefined(speakingWpm: real, typingWpm: real, hourlyRate: real) {
    speakingWpm != 0.0 && typingWpm != 0.0 && ValuePerWord(speakingWpm, typingWpm, hourlyRate) != 0.0
  }

  /**
    The single-session figures on a known tier: the times at each speed, the
    time saved, the cost savings at the tier's price, the value per word and the
    break-even word count and speaking minutes.
  */
  function Session(wordsSpoken: nat, speakingWpm: real, typingWpm: real,
                   tier: Tier, hourlyRate: real, subscriptionType: string): (s: SessionSummary)
    requires SessionDefined(speakingWpm, typingWpm, hourlyRate)
    ensures s.subscriptionType == subscriptionType && s.wordsToBreakEven.Finite?
  {
    var words := wordsSpoken as real;
    var speakingTime := words / speakingWpm;
    var typingTime := words / typingWpm;
    var timeSaved := typingTime - speakingTime;
    var costPerMinute := MonthlyCost(tier) / MinutesPerHour;
    var costSavings := timeSaved * costPerMinute;
    var valueSavedPerWord := ValuePerWord(speakingWpm, typingWpm, hourlyRate);
    var wordsToBreakEven := MonthlyCost(tier) / valueSavedPerWord;
    var minutesToBreakEven := wordsToBreakEven / speakingWpm;
    SessionSummary(speakingTime, typingTime, timeSaved, costSavings, Finite(wordsToBreakEven),
                   minutesToBreakEven, valueSavedPerWord, subscriptionType)
  }

  /**
    The session figures, the break-even analysis and the annual projection.
    Besides a zero speed and an unknown tier, it fails when the value saved per
    word is zero (equal speeds or a zero hourly rate), since the break-even word
    count divides by it; a finite break-even is produced in every other case.
  */
  function CompleteSavings(wordsSpoken: nat, speakingWpm: real, typingWpm: real,
                           subscriptionType: string, hourlyRate: real, dailyWords: nat): (r: Result<Results, Error>)
    ensures r.Failure? <==>
      speakingWpm == 0.0 || typingWpm == 0.0 || LookupTier(subscriptionType).None?
      || speakingWpm == typingWpm || hourlyRate == 0.0
    ensures r.Failure? ==>
      r.error == if speakingWpm != 0.0 && typingWpm != 0.0 && LookupTier(subscriptionType).None?
                 then UnknownSubscription(subscriptionType) else DivisionByZero
    ensures r.Success? ==>
      && SessionDefined(speakingWpm, typingWpm, hourlyRate)
      && r.value.summary
         == Session(wordsSpoken, speakingWpm, typingWpm, LookupTier(subscriptionType).value, hourlyRate, subscriptionType)
      && r.value.summary.subscriptionType == subscriptionType
      && r.value.summary.wordsToBreakEven.Finite?
      && r.value.annualData == Some(AnnualSavings(dailyWords, speakingWpm, typingWpm, subscriptionType, hourlyRate).value)
  {
    if speakingWpm == 0.0 || typingWpm == 0.0 then Failure(DivisionByZero)
    else
      match LookupTier(subscriptionType)
      case None => Failure(UnknownSubscription(subscriptionType))
      case Some(tier) =>
        if ValuePerWord(speakingWpm, typingWpm, hourlyRate) == 0.0 then Failure(DivisionByZero)
        else
          match AnnualSavings(dailyWords, speakingWpm, typingWpm, subscriptionType, hourlyRate)
          case Failure(e) => Failure(e)
          case Success(annual) =>
            Success(Results(Some(annual), Session(wordsSpoken, speakingWpm, typingWpm, tier, hourlyRate, subscriptionType)))
  }

  /** The value saved per word is zero exactly when the speeds agree or time is worth nothing. */
  lemma ValuePerWordZero(speakingWpm: real, typingWpm: real, hourlyRate: real)
    requires speakingWpm != 0.0 && typingWpm != 0.0
    ensures TimeSavedPerWord(speakingWpm, typingWpm) * (hourlyRate / MinutesPerHour) == 0.0
            <==> speakingWpm == typingWpm || hourlyRate == 0.0
  {
  }

  // ---------------------------------------------------------------------
  // Annual projection

  /** The subscription cost of a year depends on the tier alone, not on usage, speeds or rate. */
  lemma AnnualCostIgnoresUsage(subscriptionType: string,
                               daily1: nat, speaking1: real, typing1: real, rate1: real,
                               daily2: nat, speaking2: real, typing2: real, rate2: real)
    requires AnnualSavings(daily1, speaking1, typing1, subscriptionType, rate1).Success?
    requires AnnualSavings(daily2, speaking2, typing2, subscriptionType, rate2).Success?
    ensures AnnualSavings(daily1, speaking1, typing1, subscriptionType, rate1).value.annualSubscriptionCost
         == AnnualSavings(daily2, speaking2, typing2, subscriptionType, rate2).value.annualSubscriptionCost
  {
  }

  /**
    The annual figures agree with each other: a year is 365.25 days of the daily
    words, the value saved is the hours saved priced at the hourly rate, the net
    is value minus subscription, and the ROI is the net as a percentage of the
    subscription (never a division by zero: every tier costs something).
  */
  lemma AnnualFiguresConsistent(dailyWords: nat, speakingWpm: real, typingWpm: real,
                                subscriptionType: string, hourlyRate: real)
    requires AnnualSavings(dailyWords, speakingWpm, typingWpm, subscriptionType, hourlyRate).Success?
    ensures var a := AnnualSavings(dailyWords, speakingWpm, typingWpm, subscriptionType, hourlyRate).value;
      && a.dailyTimeSavedMinutes == dailyWords as real * TimeSavedPerWord(speakingWpm, typingWpm)
      && a.annualWords == dailyWords as real * DaysPerYear
      && a.annualTimeSavedHours * MinutesPerHour == a.annualWords * TimeSavedPerWord(speakingWpm, typingWpm)
      && a.annualValueSaved == a.annualTimeSavedHours * hourlyRate
      && a.annualValueSaved == a.dailyValueSaved * DaysPerYear
      && a.netAnnualSavings == a.annualValueSaved - a.annualSubscriptionCost
      && a.annualSubscriptionCost > 0.0
      && a.roiPercentage * a.annualSubscriptionCost == a.netAnnualSavings * 100.0
  {
    var a := AnnualSavings(dailyWords, speakingWpm, typingWpm, subscriptionType, hourlyRate).value;
    var d := dailyWords as real;
    var t := d / typingWpm - d / speakingWpm;
    assert d / typingWpm == d * (1.0 / typingWpm);
    assert d / speakingWpm == d * (1.0 / speakingWpm);
    assert t == d * TimeSavedPerWord(speakingWpm, typingWpm);
    assert a.dailyTimeSavedMinutes == t;
    assert a.annualTimeSavedHours * MinutesPerHour == t * DaysPerYear;
    assert a.annualValueSaved == t * (hourlyRate / MinutesPerHour) * DaysPerYear;
  }

  /** The ROI is positive exactly when the year's value exceeds the subscription, and zero at parity. */
  lemma RoiSign(dailyWords: nat, speakingWpm: real, typingWpm: real,
                subscriptionType: string, hourlyRate: real)
    requires AnnualSavings(dailyWords, speakingWpm, typingWpm, subscriptionType, hourlyRate).Success?
    ensures var a := AnnualSavings(dailyWords, speakingWpm, typingWpm, subscriptionType, hourlyRate).value;
      && (a.roiPercentage > 0.0 <==> a.annualValueSaved > a.annualSubscriptionCost)
      && (a.roiPercentage == 0.0 <==> a.annualValueSaved == a.annualSubscriptionCost)
  {
    AnnualFiguresConsistent(dailyWords, speakingWpm, typingWpm, subscriptionType, hourlyRate);
  }

  /** No daily words: nothing is saved, the net is minus the subscription and the ROI is -100 %. */
  lemma ZeroDailyWords(speakingWpm: real, typingWpm: real, subscriptionType: string, hourlyRate: real)
    requires AnnualSavings(0, speakingWpm, typingWpm, subscriptionType, hourlyRate).Success?
    ensures var a := AnnualSavings(0, speakingWpm, typingWpm, subscriptionType, hourlyRate).value;
      && a.annualWords == 0.0
      && a.annualTimeSavedHours == 0.0
      && a.annualValueSaved == 0.0
      && a.netAnnualSavings == -a.annualSubscriptionCost
      && a.roiPercentage == -100.0
  {
    AnnualFiguresConsistent(0, speakingWpm, typingWpm, subscriptionType, hourlyRate);
  }

  // ---------------------------------------------------------------------
  // Session figures and break-even

  /**
    Speaking and typing times are the words divided by the speeds, and the time
    saved is the words times the minutes saved per word.
  */
  lemma SessionTimes(wordsSpoken: nat, speakingWpm: real, typingWpm: real,
                     tier: Tier, hourlyRate: real, subscriptionType: string)
    requires SessionDefined(speakingWpm, typingWpm, hourlyRate)
    ensures var s := Session(wordsSpoken, speakingWpm, typingWpm, tier, hourlyRate, subscriptionType);
      && s.speakingTimeMinutes * speakingWpm == wordsSpoken as real
      && s.typingTimeMinutes * typingWpm == wordsSpoken as real
      && s.timeSavedMinutes == s.typingTimeMinutes - s.speakingTimeMinutes
      && s.timeSavedMinutes == wordsSpoken as real * TimeSavedPerWord(speakingWpm, typingWpm)
  {
    WordsOverSpeeds(wordsSpoken as real, speakingWpm, typingWpm);
  }

  /** The arithmetic behind `SessionTimes`, on plain reals. */
  lemma WordsOverSpeeds(w: real, speakingWpm: real, typingWpm: real)
    requires speakingWpm != 0.0 && typingWpm != 0.0
    ensures (w / speakingWpm) * speakingWpm == w && (w / typingWpm) * typingWpm == w
    ensures w / typingWpm - w / speakingWpm == w * TimeSavedPerWord(speakingWpm, typingWpm)
  {
    DivisionAsProduct(w, speakingWpm);
    DivisionAsProduct(w, typingWpm);
    var a, b := 1.0 / typingWpm, 1.0 / speakingWpm;
    assert w * (a - b) == w * a - w * b;
  }

  /** Dividing by `b` is multiplying by its inverse, and undoes multiplying by `b`. */
  lemma DivisionAsProduct(a: real, b: real)
    requires b != 0.0
    ensures a / b == a * (1.0 / b) && (a / b) * b == a
  {
  }

  /**
    With positive speeds and at least one word, time is saved exactly when
    speaking is faster than typing, and lost exactly when it is slower.
  */
  lemma TimeSavedSign(wordsSpoken: nat, speakingWpm: real, typingWpm: real,
                      tier: Tier, hourlyRate: real, subscriptionType: string)
    requires wordsSpoken > 0 && speakingWpm > 0.0 && typingWpm > 0.0
    requires SessionDefined(speakingWpm, typingWpm, hourlyRate)
    ensures var s := Session(wordsSpoken, speakingWpm, typingWpm, tier, hourlyRate, subscriptionType);
      && (s.timeSavedMinutes > 0.0 <==> speakingWpm > typingWpm)
      && (s.timeSavedMinutes < 0.0 <==> speakingWpm < typingWpm)
  {
    SessionTimes(wordsSpoken, speakingWpm, typingWpm, tier, hourlyRate, subscriptionType);
    PerWordSign(speakingWpm, typingWpm);
  }

  /** The minutes saved per word have the sign of speaking speed minus typing speed. */
  lemma PerWordSign(speakingWpm: real, typingWpm: real)
    requires speakingWpm > 0.0 && typingWpm > 0.0
    ensures TimeSavedPerWord(speakingWpm, typingWpm) > 0.0 <==> speakingWpm > typingWpm
    ensures TimeSavedPerWord(speakingWpm, typingWpm) < 0.0 <==> speakingWpm < typingWpm
  {
    var d := TimeSavedPerWord(speakingWpm, typingWpm);
    assert d * speakingWpm * typingWpm == speakingWpm - typingWpm by {
      assert (1.0 / typingWpm) * typingWpm == 1.0;
      assert (1.0 / speakingWpm) * speakingWpm == 1.0;
    }
    assert speakingWpm * typingWpm > 0.0;
  }

  /**
    The two notions of value: the session's cost savings price the time saved
    at the tier's monthly cost per sixty minutes, while the value per word
    prices the time saved per word at the hourly rate per sixty minutes.
  */
  lemma TwoValueNotions(wordsSpoken: nat, speakingWpm: real, typingWpm: real,
                        tier: Tier, hourlyRate: real, subscriptionType: string)
    requires SessionDefined(speakingWpm, typingWpm, hourlyRate)
    ensures var s := Session(wordsSpoken, speakingWpm, typingWpm, tier, hourlyRate, subscriptionType);
      && s.costSavings * MinutesPerHour == s.timeSavedMinutes * MonthlyCost(tier)
      && s.valueSavedPerWord * MinutesPerHour == TimeSavedPerWord(speakingWpm, typingWpm) * hourlyRate
      && wordsSpoken as real * s.valueSavedPerWord * MinutesPerHour == s.timeSavedMinutes * hourlyRate
  {
    SessionTimes(wordsSpoken, speakingWpm, typingWpm, tier, hourlyRate, subscriptionType);
  }

  /** The cost savings never look at the hourly rate, and the value per word never looks at the tier. */
  lemma ValueNotionsIndependent(wordsSpoken: nat, speakingWpm: real, typingWpm: real,
                                tier1: Tier, rate1: real, tier2: Tier, rate2: real, subscriptionType: string)
    requires SessionDefined(speakingWpm, typingWpm, rate1) && SessionDefined(speakingWpm, typingWpm, rate2)
    ensures var s1 := Session(wordsSpoken, speakingWpm, typingWpm, tier1, rate1, subscriptionType);
            var s2 := Session(wordsSpoken, speakingWpm, typingWpm, tier2, rate2, subscriptionType);
      && (tier1 == tier2 ==> s1.costSavings == s2.costSavings)
      && (rate1 == rate2 ==> s1.valueSavedPerWord == s2.valueSavedPerWord)
  {
  }

  /**
    The break-even round trip: the break-even word count times the value per
    word gives back the tier's monthly cost, and the break-even minutes are
    that word count spoken at the speaking speed.
  */
  lemma BreakEvenRoundTrip(wordsSpoken: nat, speakingWpm: real, typingWpm: real,
                           tier: Tier, hourlyRate: real, subscriptionType: string)
    requires SessionDefined(speakingWpm, typingWpm, hourlyRate)
    ensures var s := Session(wordsSpoken, speakingWpm, typingWpm, tier, hourlyRate, subscriptionType);
      && s.wordsToBreakEven.value * s.valueSavedPerWord == MonthlyCost(tier)
      && s.minutesToBreakEven * speakingWpm == s.wordsToBreakEven.value
  {
    var s := Session(wordsSpoken, speakingWpm, typingWpm, tier, hourlyRate, subscriptionType);
    DivisionAsProduct(MonthlyCost(tier), s.valueSavedPerWord);
    DivisionAsProduct(s.wordsToBreakEven.value, speakingWpm);
  }

  /**
    With positive speeds and rate, the break-even word count is positive
    exactly when speaking is faster; a slower speaker gets a negative count,
    which is still a finite number.
  */
  lemma BreakEvenSign(wordsSpoken: nat, speakingWpm: real, typingWpm: real,
                      tier: Tier, hourlyRate: real, subscriptionType: string)
    requires speakingWpm > 0.0 && typingWpm > 0.0 && hourlyRate > 0.0
    requires SessionDefined(speakingWpm, typingWpm, hourlyRate)
    ensures var s := Session(wordsSpoken, speakingWpm, typingWpm, tier, hourlyRate, subscriptionType);
      && (s.wordsToBreakEven.value > 0.0 <==> speakingWpm > typingWpm)
      && (s.wordsToBreakEven.value < 0.0 <==> speakingWpm < typingWpm)
  {
    var s := Session(wordsSpoken, speakingWpm, typingWpm, tier, hourlyRate, subscriptionType);
    BreakEvenRoundTrip(wordsSpoken, speakingWpm, typingWpm, tier, hourlyRate, subscriptionType);
    PerWordSign(speakingWpm, typingWpm);
    assert s.valueSavedPerWord == TimeSavedPerWord(speakingWpm, typingWpm) * (hourlyRate / MinutesPerHour);
    assert hourlyRate / MinutesPerHour > 0.0;
    assert s.valueSavedPerWord > 0.0 <==> speakingWpm > typingWpm;
  }

  /**
    Session figures are linear in the words spoken, and the break-even analysis
    does not depend on them at all.
  */
  lemma SessionLinearInWords(words1: nat, words2: nat, speakingWpm: real, typingWpm: real,
                             tier: Tier, hourlyRate: real, subscriptionType: string)
    requires SessionDefined(speakingWpm, typingWpm, hourlyRate)
    ensures var s1 := Session(words1, speakingWpm, typingWpm, tier, hourlyRate, subscriptionType);
            var s2 := Session(words2, speakingWpm, typingWpm, tier, hourlyRate, subscriptionType);
            var s := Session(words1 + words2, speakingWpm, typingWpm, tier, hourlyRate, subscriptionType);
      && s.speakingTimeMinutes == s1.speakingTimeMinutes + s2.speakingTimeMinutes
      && s.typingTimeMinutes == s1.typingTimeMinutes + s2.typingTimeMinutes
      && s.timeSavedMinutes == s1.timeSavedMinutes + s2.timeSavedMinutes
      && s.costSavings == s1.costSavings + s2.costSavings
      && s.wordsToBreakEven == s1.wordsToBreakEven
      && s.minutesToBreakEven == s1.minutesToBreakEven
      && s.valueSavedPerWord == s1.valueSavedPerWord
  {
    var w1, w2 := words1 as real, words2 as real;
    SumOverSpeed(w1, w2, speakingWpm);
    SumOverSpeed(w1, w2, typingWpm);
  }

  /** Dividing a sum of word counts by a speed adds the separate times. */
  lemma SumOverSpeed(w1: real, w2: real, wpm: real)
    requires wpm != 0.0
    ensures (w1 + w2) / wpm == w1 / wpm + w2 / wpm
  {
    DivisionAsProduct(w1 + w2, wpm);
    DivisionAsProduct(w1, wpm);
    DivisionAsProduct(w2, wpm);
  }

  /** The session summary is the same whatever daily usage is assumed. */
  lemma SummaryIgnoresDailyWords(wordsSpoken: nat, speakingWpm: real, typingWpm: real,
                                 subscriptionType: string, hourlyRate: real, daily1: nat, daily2: nat)
    requires CompleteSavings(wordsSpoken, speakingWpm, typingWpm, subscriptionType, hourlyRate, daily1).Success?
    ensures CompleteSavings(wordsSpoken, speakingWpm, typingWpm, subscriptionType, hourlyRate, daily2).Success?
    ensures CompleteSavings(wordsSpoken, speakingWpm, typingWpm, subscriptionType, hourlyRate, daily1).value.summary
         == CompleteSavings(wordsSpoken, speakingWpm, typingWpm, subscriptionType, hourlyRate, daily2).value.summary
  {
  }

  /**
    The sample session: 372 words at 124 WPM against 90 WPM typing on the
    Pro Monthly plan at 50.49 an hour, with 500 words a day.
  */
  lemma SampleSession()
    ensures CompleteSavings(372, 124.0, 90.0, "pro_monthly", 50.49, 500).Success?
    ensures var r := CompleteSavings(372, 124.0, 90.0, "pro_monthly", 50.49, 500).value;
      && r.summary.speakingTimeMinutes == 3.0
      && r.summary.typingTimeMinutes == 372.0 / 90.0
      && r.summary.timeSavedMinutes == 17.0 / 15.0
      && r.summary.costSavings == 17.0 / 60.0
      && r.summary.wordsToBreakEven.Finite? && r.summary.wordsToBreakEven.value > 0.0
      && r.annualData.Some? && r.annualData.value.annualWords == 182625.0
      && r.annualData.value.annualSubscriptionCost == 180.0
  {
    BreakEvenSign(372, 124.0, 90.0, ProMonthly, 50.49, "pro_monthly");
  }

  /** A plan name outside the table is a lookup failure, never a zero-cost result. */
  lemma UnknownTierFails(wordsSpoken: nat, speakingWpm: real, typingWpm: real, name: string,
                         hourlyRate: real, dailyWords: nat)
    requires speakingWpm != 0.0 && typingWpm != 0.0 && LookupTier(name).None?
    ensures CompleteSavings(wordsSpoken, speakingWpm, typingWpm, name, hourlyRate, dailyWords)
         == Failure(UnknownSubscription(name))
  {
  }
}
