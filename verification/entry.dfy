/** `parseAM` and `parsePM`: the entry a check-in message becomes. Both
    collapse the whitespace of the message first, then run one pattern per
    field; a field is present exactly when its pattern matches. */
module Entry {
  import opened Wrappers
  import opened Chars
  import opened Text
  import opened Scan
  import opened ClassMatch
  import opened NumberMatch
  import opened FreeTextMatch
  import opened TrainingMatch

  /** A parsed check-in, the handler's `fields`. A field is `None` when its
      pattern did not match, as the parser then leaves the property off the
      object. Counts are `parseInt` results; decimals are `parseFloat`
      results, kept as the digits they were parsed from. */
  datatype Fields =
    | Morning(sleepHours: Option<Decimal>, mood: Option<nat>, energy: Option<nat>, notes: Option<string>)
    | Evening(trainingType: Option<string>, rpe: Option<nat>, steps: Option<nat>,
              protein: Option<nat>, fiber: Option<nat>, water: Option<Decimal>,
              caffeine: Option<nat>, caffeineAfter2pm: Option<string>, alcohol: Option<Decimal>,
              giSymptoms: Option<string>, supplements: Option<string>, flags: Option<string>)

  // ------------------------------------------------------------ numbers

  function DigitValue(c: char): (n: nat)
    requires IsDigit(c)
    ensures n <= 9
  {
    c as int - '0' as int
  }

  /** 10^n. */
  function Pow10(n: nat): nat {
    if n == 0 then 1 else 10 * Pow10(n - 1)
  }

  /** `parseInt` of a string of decimal digits. */
  function DigitsValue(s: string): (n: nat)
    requires AllDigits(s)
    ensures n < Pow10(|s|)
    decreases |s|
  {
    if |s| == 0 then 0
    else
      AllInSlice(s, 0, |s| - 1, Digit);
      10 * DigitsValue(s[..|s| - 1]) + DigitValue(s[|s| - 1])
  }

  // ------------------------------------------------------------ the patterns

  /** `\d{1,2}(?:\.\d+)?`: Sleep and Water. */
  const ShortDecimal := NumberForm(Some(2), true)
  /** `\d{1,4}`: Protein, Fiber and Caffeine. */
  const Whole4 := NumberForm(Some(4), false)
  /** `\d+(?:\.\d+)?`: Alcohol. */
  const AnyDecimal := NumberForm(None, true)

  /** `[1-5]`: Mood and Energy. */
  const Ratings: set<char> := {'1', '2', '3', '4', '5'}
  /** `(Y|N)` under the `i` flag. */
  const YesNo: set<char> := {'Y', 'N', 'y', 'n'}

  /** `\s*(.*)$`: Notes. */
  const RestOfLine := TextForm(0, NotLineEnd, 0, true)
  /** `\s+(.+)$`: Flags. */
  const RestOfLine1 := TextForm(1, NotLineEnd, 1, true)
  /** `\s+([^|]+)`: GI and Supplements/Creatine. */
  const UpToBar := TextForm(1, NotBar, 1, false)

  lemma RatingsSpaceFree()
    ensures SpaceFree(Ratings)
  {
    forall c | c in Ratings ensures !IsSpace(c) {
    }
  }

  lemma YesNoSpaceFree()
    ensures SpaceFree(YesNo)
  {
    forall c | c in YesNo ensures !IsSpace(c) {
    }
  }

  // ------------------------------------------------------------ one field each

  /** `parseInt(m[1])` of a `\d{1,4}` capture. */
  function WholeField(t: string, kw: string, unit: string): Option<nat>
    requires UnitOk(unit)
  {
    NumberFindFits(t, kw, Whole4, unit);
    match NumberFind(t, kw, Whole4, unit)
    case Some(d) => Some(DigitsValue(d.intDigits))
    case None => None
  }

  /** `parseInt(m[1])` of a `[1-5]` capture. */
  function RatingField(t: string, kw: string): Option<nat> {
    match ClassFind(t, kw, Ratings)
    case Some(c) => Some(DigitValue(c))
    case None => None
  }

  /** `m[1].trim()` of a free-text capture. */
  function TextField(t: string, kw: string, form: TextForm): Option<string> {
    match TextFind(t, kw, form)
    case Some(s) => Some(Trim(s))
    case None => None
  }

  /** `parseInt(m[1])` of the Steps capture. */
  function StepsField(t: string): Option<nat> {
    match DigitsFind(t, "steps")
    case Some(s) => Some(DigitsValue(s))
    case None => None
  }

  /** `m[1].toUpperCase()` of the `(Y|N)` capture. */
  function AfterField(t: string): Option<string> {
    match ClassFind(t, "after14:00", YesNo)
    case Some(c) => Some([Upper(c)])
    case None => None
  }

  /** The Training pattern fills two fields: the upper-cased type letter, */
  function KindField(t: string): Option<string> {
    match TrainingFind(t)
    case Some(s) => Some([Upper(s.kind)])
    case None => None
  }

  /** and `parseInt` of the RPE digits. */
  function RpeField(t: string): Option<nat> {
    TrainingFindShape(t);
    match TrainingFind(t)
    case Some(s) => Some(DigitsValue(s.rpe))
    case None => None
  }

  // ------------------------------------------------------------ the entries

  /** The morning entry of a collapsed text. */
  function AmFields(t: string): Fields {
    Morning(
      NumberFind(t, "sleep", ShortDecimal, "h"),
      RatingField(t, "mood"),
      RatingField(t, "energy"),
      TextField(t, "notes:", RestOfLine))
  }

  /** The evening entry of a collapsed text. */
  function PmFields(t: string): Fields {
    Evening(
      KindField(t),
      RpeField(t),
      StepsField(t),
      WholeField(t, "protein", "g"),
      WholeField(t, "fiber", "g"),
      NumberFind(t, "water", ShortDecimal, "l"),
      WholeField(t, "caffeine", "mg"),
      AfterField(t),
      NumberFind(t, "alcohol", AnyDecimal, "unit"),
      TextField(t, "gi", UpToBar),
      TextField(t, "supplements/creatine", UpToBar),
      TextField(t, "flags", RestOfLine1))
  }

  /** `parseAM(text)`. */
  function ParseAM(text: string): Fields {
    AmFields(Collapse(text))
  }

  /** `parsePM(text)`. */
  function ParsePM(text: string): Fields {
    PmFields(Collapse(text))
  }

  // ------------------------------------------------------------ parseInt

  lemma {:induction false} Pow10Monotone(a: nat, b: nat)
    requires a <= b
    ensures Pow10(a) <= Pow10(b)
    decreases b
  {
    if a < b {
      Pow10Monotone(a, b - 1);
    }
  }

  lemma ShiftTen(x: int, y: int)
    ensures 10 * (x * y) == x * (10 * y)
  {
  }

  /** Digits are read left to right: the value of a + b is the value of a
      shifted past the digits of b, plus the value of b. */
  lemma {:induction false} DigitsValueConcat(a: string, b: string)
    requires AllDigits(a) && AllDigits(b)
    ensures AllDigits(a + b)
    ensures DigitsValue(a + b) == DigitsValue(a) * Pow10(|b|) + DigitsValue(b)
    decreases |b|
  {
    forall j: nat | j < |a + b| ensures In((a + b)[j], Digit) {
      if j < |a| {
        assert In(a[j], Digit);
      } else {
        assert In(b[j - |a|], Digit);
      }
    }
    if |b| == 0 {
      assert a + b == a;
    } else {
      var b' := b[..|b| - 1];
      AllInSlice(b, 0, |b| - 1, Digit);
      DigitsValueConcat(a, b');
      assert (a + b)[..|a + b| - 1] == a + b';
      assert (a + b)[|a + b| - 1] == b[|b| - 1];
      var va, vb', d, p := DigitsValue(a), DigitsValue(b'), DigitValue(b[|b| - 1]), Pow10(|b'|);
      assert Pow10(|b|) == 10 * p;
      ShiftTen(va, p);
      calc {
        DigitsValue(a + b);
        10 * DigitsValue(a + b') + d;
        10 * (va * p + vb') + d;
        va * (10 * p) + (10 * vb' + d);
        va * Pow10(|b|) + DigitsValue(b);
      }
    }
  }

  /** At most k digits are worth less than 10^k. */
  lemma DigitsBelow(s: string, k: nat)
    requires AllDigits(s) && |s| <= k
    ensures DigitsValue(s) < Pow10(k)
  {
    Pow10Monotone(|s|, k);
  }

  // ------------------------------------------------------------ the fields

  /** Trimming keeps a piece of the capture, so it keeps the capture's class. */
  lemma TrimKeepsClass(s: string, k: Class)
    requires AllIn(s, 0, |s|, k)
    ensures AllIn(Trim(s), 0, |Trim(s)|, k)
  {
    var a, b := TrimSlice(s);
    assert AllIn(s, a, b, k);
    AllInSlice(s, a, b, k);
  }

  lemma RatingFieldMeaning(t: string, kw: string)
    ensures RatingField(t, kw).Some? <==> exists i: nat :: ClassMatchesAt(t, i, kw, Ratings)
    ensures RatingField(t, kw).Some? ==> 1 <= RatingField(t, kw).value <= 5
  {
    RatingsSpaceFree();
    ClassFindMeaning(t, kw, Ratings);
  }

  lemma WholeFieldMeaning(t: string, kw: string, unit: string)
    requires UnitOk(unit)
    ensures WholeField(t, kw, unit).Some? <==> exists i: nat :: NumberMatchesAt(t, i, kw, Whole4, unit)
    ensures WholeField(t, kw, unit).Some? ==> WholeField(t, kw, unit).value <= 9999
  {
    NumberFindMeaning(t, kw, Whole4, unit);
    NumberFindFits(t, kw, Whole4, unit);
    if WholeField(t, kw, unit).Some? {
      DigitsBelow(NumberFind(t, kw, Whole4, unit).value.intDigits, 4);
    }
  }

  /** A free-text field is trimmed and keeps the class of its capture. */
  lemma TextFieldMeaning(t: string, kw: string, form: TextForm)
    ensures TextField(t, kw, form).Some? <==> exists i: nat :: TextMatchesAt(t, i, kw, form)
    ensures TextField(t, kw, form).Some? ==>
              var v := TextField(t, kw, form).value;
              && (|v| == 0 || (!IsSpace(v[0]) && !IsSpace(v[|v| - 1])))
              && AllIn(v, 0, |v|, form.cls)
  {
    TextFindMeaning(t, kw, form);
    TextFindShape(t, kw, form);
    if TextFind(t, kw, form).Some? {
      TrimKeepsClass(TextFind(t, kw, form).value, form.cls);
    }
  }

  lemma StepsFieldMeaning(t: string)
    ensures StepsField(t).Some? <==> exists i: nat :: DigitsMatchesAt(t, i, "steps")
  {
    DigitsFindMeaning(t, "steps");
  }

  /** A rating is the digit of the leftmost match. */
  lemma RatingFieldCapture(t: string, kw: string)
    ensures RatingField(t, kw).Some? ==>
              exists i: nat, p: nat :: && ClassSpan(t, i, kw, Ratings, p)
                                       && (forall j: nat :: j < i ==> !ClassMatchesAt(t, j, kw, Ratings))
                                       && p < |t| && IsDigit(t[p])
                                       && RatingField(t, kw) == Some(DigitValue(t[p]))
  {
    RatingsSpaceFree();
    ClassFindMeaning(t, kw, Ratings);
    if RatingField(t, kw).Some? {
      var i: nat, p: nat :| && ClassSpan(t, i, kw, Ratings, p)
                            && ClassFind(t, kw, Ratings) == Some(t[p])
                            && forall j: nat :: j < i ==> !ClassMatchesAt(t, j, kw, Ratings);
      var c := t[p];
      assert c in Ratings;
      assert RatingField(t, kw) == Some(DigitValue(c));
    }
  }

  /** A whole number is the value of the integer digits of the leftmost match. */
  lemma WholeFieldCapture(t: string, kw: string, unit: string)
    requires UnitOk(unit)
    ensures WholeField(t, kw, unit).Some? ==>
              exists i: nat, p: nat, m: nat, q: nat, r: nat ::
                && NumberSpan(t, i, kw, Whole4, unit, p, m, q, r)
                && (forall j: nat :: j < i ==> !NumberMatchesAt(t, j, kw, Whole4, unit))
                && p <= m <= |t| && AllDigits(t[p..m])
                && WholeField(t, kw, unit) == Some(DigitsValue(t[p..m]))
  {
    NumberFindMeaning(t, kw, Whole4, unit);
    NumberFindFits(t, kw, Whole4, unit);
    if NumberFind(t, kw, Whole4, unit).Some? {
      var i: nat, p: nat, m: nat, q: nat, r: nat :|
        && NumberSpan(t, i, kw, Whole4, unit, p, m, q, r)
        && NumberFind(t, kw, Whole4, unit) == Some(Captured(t, p, m, q))
        && forall j: nat :: j < i ==> !NumberMatchesAt(t, j, kw, Whole4, unit);
      var digits := t[p..m];
      assert NumberFind(t, kw, Whole4, unit).value.intDigits == digits;
      assert WholeField(t, kw, unit) == Some(DigitsValue(digits));
    }
  }

  /** A free-text field is the trimmed capture of the leftmost match. */
  lemma TextFieldCapture(t: string, kw: string, form: TextForm)
    ensures TextField(t, kw, form).Some? ==>
              exists i: nat, q: nat, e: nat ::
                && TextChosen(t, i, kw, form, q, e)
                && (forall j: nat :: j < i ==> !TextMatchesAt(t, j, kw, form))
                && q <= e <= |t|
                && TextField(t, kw, form) == Some(Trim(t[q..e]))
  {
    TextFindMeaning(t, kw, form);
    if TextFind(t, kw, form).Some? {
      var i: nat, q: nat, e: nat :|
        && TextChosen(t, i, kw, form, q, e)
        && TextFind(t, kw, form) == Some(t[q..e])
        && forall j: nat :: j < i ==> !TextMatchesAt(t, j, kw, form);
      var capture := t[q..e];
      assert TextField(t, kw, form) == Some(Trim(capture));
    }
  }

  /** Steps is the value of the whole digit run of the leftmost match. */
  lemma StepsFieldCapture(t: string)
    ensures StepsField(t).Some? ==>
              exists i: nat, p: nat, q: nat ::
                && DigitsChosen(t, i, "steps", p, q)
                && (forall j: nat :: j < i ==> !DigitsMatchesAt(t, j, "steps"))
                && p <= q <= |t| && AllDigits(t[p..q])
                && StepsField(t) == Some(DigitsValue(t[p..q]))
  {
    DigitsFindMeaning(t, "steps");
    if DigitsFind(t, "steps").Some? {
      var i: nat, p: nat, q: nat :|
        && DigitsChosen(t, i, "steps", p, q)
        && DigitsFind(t, "steps") == Some(t[p..q])
        && forall j: nat :: j < i ==> !DigitsMatchesAt(t, j, "steps");
      var digits := t[p..q];
      assert AllDigits(digits);
      assert StepsField(t) == Some(DigitsValue(digits));
    }
  }

  lemma AfterFieldMeaning(t: string)
    ensures AfterField(t).Some? <==> exists i: nat :: ClassMatchesAt(t, i, "after14:00", YesNo)
    ensures AfterField(t).Some? ==> AfterField(t).value == "Y" || AfterField(t).value == "N"
  {
    YesNoSpaceFree();
    ClassFindMeaning(t, "after14:00", YesNo);
  }

  /** The answer comes from the leftmost match: "Y" exactly for a captured
      `y` or `Y`, "N" exactly for a captured `n` or `N`. */
  lemma AfterFieldCapture(t: string)
    ensures AfterField(t).Some? ==>
              exists i: nat, p: nat :: && ClassSpan(t, i, "after14:00", YesNo, p)
                                       && (forall j: nat :: j < i ==> !ClassMatchesAt(t, j, "after14:00", YesNo))
                                       && (AfterField(t) == Some("Y") <==> t[p] == 'y' || t[p] == 'Y')
                                       && (AfterField(t) == Some("N") <==> t[p] == 'n' || t[p] == 'N')
  {
    YesNoSpaceFree();
    ClassFindMeaning(t, "after14:00", YesNo);
    if AfterField(t).Some? {
      var i: nat, p: nat :| && ClassSpan(t, i, "after14:00", YesNo, p)
                            && ClassFind(t, "after14:00", YesNo) == Some(t[p])
                            && forall j: nat :: j < i ==> !ClassMatchesAt(t, j, "after14:00", YesNo);
      var c := t[p];
      assert c in YesNo;
      assert AfterField(t) == Some([Upper(c)]);
      assert Upper(c) == 'Y' <==> c == 'y' || c == 'Y';
    }
  }

  lemma UpperKind(c: char)
    requires c in Kinds
    ensures Upper(c) in {'S', 'C', 'M', 'R'}
  {
  }

  /** The Training pattern gives both of its fields or neither. */
  lemma TrainingFieldsMeaning(t: string)
    ensures KindField(t).Some? <==> exists i: nat :: TrainingMatchesAt(t, i)
    ensures RpeField(t).Some? <==> KindField(t).Some?
    ensures KindField(t).Some? ==> |KindField(t).value| == 1 && KindField(t).value[0] in {'S', 'C', 'M', 'R'}
    ensures RpeField(t).Some? ==> RpeField(t).value <= 99
  {
    TrainingFindMeaning(t);
    TrainingFindShape(t);
    if TrainingFind(t).Some? {
      UpperKind(TrainingFind(t).value.kind);
      DigitsBelow(TrainingFind(t).value.rpe, 2);
    }
  }

  /** The type comes from the leftmost match: its letter, upper-cased. */
  lemma TrainingFieldsCapture(t: string)
    ensures KindField(t).Some? ==>
              exists i: nat, p: nat, a: nat, q: nat, e: nat ::
                && TrainingChosen(t, i, p, a, q, e)
                && (forall j: nat :: j < i ==> !TrainingMatchesAt(t, j))
                && KindField(t) == Some([Upper(t[p])])
  {
    TrainingFindMeaning(t);
    if TrainingFind(t).Some? {
      var i: nat, p: nat, a: nat, q: nat, e: nat :|
        && TrainingChosen(t, i, p, a, q, e)
        && TrainingFind(t) == Some(Session(t[p], t[q..e]))
        && forall j: nat :: j < i ==> !TrainingMatchesAt(t, j);
      assert KindField(t) == Some([Upper(t[p])]);
    }
  }

  /** The RPE comes from the same leftmost match: the value of its digits. */
  lemma RpeFieldCapture(t: string)
    ensures RpeField(t).Some? ==>
              exists i: nat, p: nat, a: nat, q: nat, e: nat ::
                && TrainingChosen(t, i, p, a, q, e)
                && (forall j: nat :: j < i ==> !TrainingMatchesAt(t, j))
                && q <= e <= |t| && AllDigits(t[q..e])
                && RpeField(t) == Some(DigitsValue(t[q..e]))
  {
    TrainingFindMeaning(t);
    TrainingFindShape(t);
    if TrainingFind(t).Some? {
      var i: nat, p: nat, a: nat, q: nat, e: nat :|
        && TrainingChosen(t, i, p, a, q, e)
        && TrainingFind(t) == Some(Session(t[p], t[q..e]))
        && forall j: nat :: j < i ==> !TrainingMatchesAt(t, j);
      var rpe := t[q..e];
      assert AllDigits(rpe);
      assert RpeField(t) == Some(DigitsValue(rpe));
    }
  }

  // ------------------------------------------------------------ what the entries hold

  /** `parseAM` records each field exactly when its pattern matches somewhere
      in the collapsed text. */
  lemma AmFieldsPresence(t: string)
    ensures AmFields(t).sleepHours.Some? <==> exists i: nat :: NumberMatchesAt(t, i, "sleep", ShortDecimal, "h")
    ensures AmFields(t).mood.Some? <==> exists i: nat :: ClassMatchesAt(t, i, "mood", Ratings)
    ensures AmFields(t).energy.Some? <==> exists i: nat :: ClassMatchesAt(t, i, "energy", Ratings)
    ensures AmFields(t).notes.Some? <==> exists i: nat :: TextMatchesAt(t, i, "notes:", RestOfLine)
  {
    NumberFindMeaning(t, "sleep", ShortDecimal, "h");
    RatingFieldMeaning(t, "mood");
    RatingFieldMeaning(t, "energy");
    TextFieldMeaning(t, "notes:", RestOfLine);
  }

  /** The values `parseAM` stores: sleep hours with one or two integer
      digits, ratings from 1 to 5, trimmed notes. */
  lemma AmFieldsValues(t: string)
    ensures var e := AmFields(t);
            && (e.sleepHours.Some? ==> Fits(e.sleepHours.value, ShortDecimal))
            && (e.mood.Some? ==> 1 <= e.mood.value <= 5)
            && (e.energy.Some? ==> 1 <= e.energy.value <= 5)
            && (e.notes.Some? ==> Trim(e.notes.value) == e.notes.value)
  {
    NumberFindFits(t, "sleep", ShortDecimal, "h");
    RatingFieldMeaning(t, "mood");
    RatingFieldMeaning(t, "energy");
    TextFieldMeaning(t, "notes:", RestOfLine);
  }

  /** Training, RPE and Steps are recorded exactly when their patterns match;
      the session type and its RPE come together or not at all. */
  lemma PmActivityPresence(t: string)
    ensures PmFields(t).trainingType.Some? <==> exists i: nat :: TrainingMatchesAt(t, i)
    ensures PmFields(t).rpe.Some? <==> PmFields(t).trainingType.Some?
    ensures PmFields(t).steps.Some? <==> exists i: nat :: DigitsMatchesAt(t, i, "steps")
  {
    TrainingFieldsMeaning(t);
    StepsFieldMeaning(t);
  }

  /** Protein, fiber and water are recorded exactly when their patterns match. */
  lemma PmFoodPresence(t: string)
    ensures PmFields(t).protein.Some? <==> exists i: nat :: NumberMatchesAt(t, i, "protein", Whole4, "g")
    ensures PmFields(t).fiber.Some? <==> exists i: nat :: NumberMatchesAt(t, i, "fiber", Whole4, "g")
    ensures PmFields(t).water.Some? <==> exists i: nat :: NumberMatchesAt(t, i, "water", ShortDecimal, "l")
  {
    WholeFieldMeaning(t, "protein", "g");
    WholeFieldMeaning(t, "fiber", "g");
    NumberFindMeaning(t, "water", ShortDecimal, "l");
  }

  /** Caffeine, caffeine after 14:00 and alcohol are recorded exactly when
      their patterns match. */
  lemma PmDrinkPresence(t: string)
    ensures PmFields(t).caffeine.Some? <==> exists i: nat :: NumberMatchesAt(t, i, "caffeine", Whole4, "mg")
    ensures PmFields(t).caffeineAfter2pm.Some? <==> exists i: nat :: ClassMatchesAt(t, i, "after14:00", YesNo)
    ensures PmFields(t).alcohol.Some? <==> exists i: nat :: NumberMatchesAt(t, i, "alcohol", AnyDecimal, "unit")
  {
    WholeFieldMeaning(t, "caffeine", "mg");
    AfterFieldMeaning(t);
    NumberFindMeaning(t, "alcohol", AnyDecimal, "unit");
  }

  /** The free-text fields are recorded exactly when their patterns match. */
  lemma PmTextPresence(t: string)
    ensures PmFields(t).giSymptoms.Some? <==> exists i: nat :: TextMatchesAt(t, i, "gi", UpToBar)
    ensures PmFields(t).supplements.Some? <==> exists i: nat :: TextMatchesAt(t, i, "supplements/creatine", UpToBar)
    ensures PmFields(t).flags.Some? <==> exists i: nat :: TextMatchesAt(t, i, "flags", RestOfLine1)
  {
    TextFieldMeaning(t, "gi", UpToBar);
    TextFieldMeaning(t, "supplements/creatine", UpToBar);
    TextFieldMeaning(t, "flags", RestOfLine1);
  }

  /** The values of the activity fields: an upper-case session type from
      S, C, M, R, and an RPE below 100. */
  lemma PmActivityValues(t: string)
    ensures var e := PmFields(t);
            && (e.trainingType.Some? ==> e.trainingType.value in {"S", "C", "M", "R"})
            && (e.rpe.Some? ==> e.rpe.value <= 99)
  {
    TrainingFieldsMeaning(t);
    if KindField(t).Some? {
      var v := KindField(t).value;
      assert v == [v[0]];
    }
  }

  /** Whole grams below 10000, and water with one or two integer digits. */
  lemma PmFoodValues(t: string)
    ensures var e := PmFields(t);
            && (e.protein.Some? ==> e.protein.value <= 9999)
            && (e.fiber.Some? ==> e.fiber.value <= 9999)
            && (e.water.Some? ==> Fits(e.water.value, ShortDecimal))
  {
    WholeFieldMeaning(t, "protein", "g");
    WholeFieldMeaning(t, "fiber", "g");
    NumberFindFits(t, "water", ShortDecimal, "l");
  }

  /** Milligrams of caffeine below 10000, an upper-case Y or N for caffeine
      after 14:00, and alcohol units as a decimal. */
  lemma PmDrinkValues(t: string)
    ensures var e := PmFields(t);
            && (e.caffeine.Some? ==> e.caffeine.value <= 9999)
            && (e.caffeineAfter2pm.Some? ==> e.caffeineAfter2pm.value in {"Y", "N"})
            && (e.alcohol.Some? ==> Fits(e.alcohol.value, AnyDecimal))
  {
    WholeFieldMeaning(t, "caffeine", "mg");
    AfterFieldMeaning(t);
    NumberFindFits(t, "alcohol", AnyDecimal, "unit");
  }

  /** The free-text values are trimmed; GI symptoms and supplements never
      contain a `|`, which ends them. */
  lemma PmBarValues(t: string)
    ensures var e := PmFields(t);
            && (e.giSymptoms.Some? ==> '|' !in e.giSymptoms.value && Trim(e.giSymptoms.value) == e.giSymptoms.value)
            && (e.supplements.Some? ==> '|' !in e.supplements.value && Trim(e.supplements.value) == e.supplements.value)
  {
    TextFieldMeaning(t, "gi", UpToBar);
    TextFieldMeaning(t, "supplements/creatine", UpToBar);
  }

  /** The flags are trimmed. */
  lemma PmFlagsValue(t: string)
    ensures PmFields(t).flags.Some? ==> Trim(PmFields(t).flags.value) == PmFields(t).flags.value
  {
    TextFieldMeaning(t, "flags", RestOfLine1);
  }

  /** Both parsers see only the collapsed text, so collapsing first changes nothing. */
  lemma ParseCollapsed(text: string)
    ensures ParseAM(Collapse(text)) == ParseAM(text)
    ensures ParsePM(Collapse(text)) == ParsePM(text)
  {
    CollapseIdempotent(text);
  }
}
