/** Patterns that capture a number:
    - `kw\s+(N)\s*unit` where N is `\d{1,4}` (Protein ... g, Fiber ... g,
      Caffeine ... mg), `\d{1,2}(?:\.\d+)?` (Sleep ... h, Water ... L) or
      `\d+(?:\.\d+)?` (Alcohol ... unit, whose optional trailing `s` changes
      neither whether it matches nor what it captures);
    - `kw\s+(\d+)` (Steps). */
module NumberMatch {
  import opened Wrappers
  import opened Chars
  import opened Text
  import opened Scan

  /** The number part: at most maxIntDigits integer digits (any number when
      None), then `(?:\.\d+)?` when fraction holds. */
  datatype NumberForm = NumberForm(maxIntDigits: Option<nat>, fraction: bool)

  /** A captured number: its integer digits and its fraction digits (empty
      when the capture has no fraction). */
  datatype Decimal = Decimal(intDigits: string, fracDigits: string)

  predicate AllDigits(s: string) {
    AllIn(s, 0, |s|, Digit)
  }

  /** A unit the matcher supports: it starts with an ASCII letter, so no
      digit, point or whitespace can stand where it begins. */
  predicate UnitOk(unit: string) {
    |unit| > 0 && IsAsciiLetter(unit[0])
  }

  /** A match of `kw\s+(N)\s*unit` at i: integer digits t[p..m], fraction
      digits t[m+1..q] when q > m, the unit at r. */
  ghost predicate NumberSpan(t: string, i: nat, kw: string, form: NumberForm, unit: string,
                             p: nat, m: nat, q: nat, r: nat)
  {
    && KeywordAt(t, i, kw)
    && i + |kw| < p
    && AllIn(t, i + |kw|, p, WhiteSpace)
    && TailSpan(t, p, form, unit, m, q, r)
  }

  /** The part `(N)\s*unit` of a match, starting at p. */
  ghost predicate TailSpan(t: string, p: nat, form: NumberForm, unit: string, m: nat, q: nat, r: nat)
  {
    && p < m <= q <= r
    && AllIn(t, p, m, Digit)
    && (form.maxIntDigits.Some? ==> m - p <= form.maxIntDigits.value)
    && AllIn(t, q, r, WhiteSpace)
    && (q == m || (form.fraction && m + 1 < q && t[m] == '.' && AllIn(t, m + 1, q, Digit)))
    && KeywordAt(t, r, unit)
  }

  /** The capture group of the match with those positions. */
  function Captured(t: string, p: nat, m: nat, q: nat): Decimal
    requires p <= m <= q <= |t|
  {
    Decimal(t[p..m], if q == m then [] else t[m + 1..q])
  }

  ghost predicate NumberMatchesAt(t: string, i: nat, kw: string, form: NumberForm, unit: string) {
    exists p: nat, m: nat, q: nat, r: nat :: NumberSpan(t, i, kw, form, unit, p, m, q, r)
  }

  /** The attempt at i. Each greedy part keeps all it reached: giving back
      whitespace leaves whitespace where a digit must be, and giving back a
      digit leaves a digit where a point, whitespace or the unit must be. With
      more integer digits than the form allows, the digit after the last
      allowed one stands where the point or unit must be, so there is no match. */
  function NumberAt(t: string, i: nat, kw: string, form: NumberForm, unit: string): (d: Option<Decimal>)
  {
    if KeywordAt(t, i, kw) then NumberAfter(t, i + |kw|, form, unit) else None
  }

  /** `\s+(N)\s*unit` tried at k. */
  function NumberAfter(t: string, k: nat, form: NumberForm, unit: string): Option<Decimal>
    requires k <= |t|
  {
    var p := RunEnd(t, k, WhiteSpace);
    if p == k then None else NumberFrom(t, p, form, unit)
  }

  /** `(N)\s*unit` tried at p. */
  function NumberFrom(t: string, p: nat, form: NumberForm, unit: string): Option<Decimal>
    requires p <= |t|
  {
    var m := RunEnd(t, p, Digit);
    if m == p || (form.maxIntDigits.Some? && m - p > form.maxIntDigits.value) then None
    else UnitAfter(t, p, m, FractionEnd(t, m, form), unit)
  }

  /** `\s*unit` tried at q, after the number t[p..q] whose integer part ends at m. */
  function UnitAfter(t: string, p: nat, m: nat, q: nat, unit: string): Option<Decimal>
    requires p <= m <= q <= |t|
  {
    if KeywordAt(t, RunEnd(t, q, WhiteSpace), unit) then Some(Captured(t, p, m, q)) else None
  }

  /** Where `(?:\.\d+)?` stops when tried at m: past the point and all the
      digits after it when there is at least one, otherwise at m. */
  function FractionEnd(t: string, m: nat, form: NumberForm): (q: nat)
    requires m <= |t|
    ensures m <= q <= |t|
    ensures q == m || (form.fraction && m + 1 < q && t[m] == '.' && AllIn(t, m + 1, q, Digit))
    ensures q > m ==> q == |t| || !IsDigit(t[q])
    ensures form.fraction && m + 1 < |t| && t[m] == '.' && IsDigit(t[m + 1]) ==> q > m
  {
    if form.fraction && m + 1 < |t| && t[m] == '.' && IsDigit(t[m + 1])
    then RunEnd(t, m + 1, Digit) else m
  }

  /** The attempt succeeds exactly when the pattern matches at i, and every
      match at i has the capture the attempt returns. */
  lemma NumberAtMeaning(t: string, i: nat, kw: string, form: NumberForm, unit: string)
    requires UnitOk(unit)
    ensures NumberAt(t, i, kw, form, unit).Some? <==> NumberMatchesAt(t, i, kw, form, unit)
    ensures forall p: nat, m: nat, q: nat, r: nat :: NumberSpan(t, i, kw, form, unit, p, m, q, r) ==>
              NumberAt(t, i, kw, form, unit) == Some(Captured(t, p, m, q))
  {
    if NumberAt(t, i, kw, form, unit).Some? {
      NumberAtSound(t, i, kw, form, unit);
    }
    forall p: nat, m: nat, q: nat, r: nat | NumberSpan(t, i, kw, form, unit, p, m, q, r)
      ensures NumberAt(t, i, kw, form, unit) == Some(Captured(t, p, m, q))
    {
      NumberAtComplete(t, i, kw, form, unit, p, m, q, r);
    }
  }

  lemma NumberAtSound(t: string, i: nat, kw: string, form: NumberForm, unit: string)
    requires NumberAt(t, i, kw, form, unit).Some?
    ensures NumberMatchesAt(t, i, kw, form, unit)
  {
    var p := RunEnd(t, i + |kw|, WhiteSpace);
    var m, q, r := NumberFromSound(t, p, form, unit);
    assert NumberSpan(t, i, kw, form, unit, p, m, q, r);
  }

  /** A successful attempt at p exhibits the rest of a match. */
  lemma NumberFromSound(t: string, p: nat, form: NumberForm, unit: string) returns (m: nat, q: nat, r: nat)
    requires p <= |t| && NumberFrom(t, p, form, unit).Some?
    ensures TailSpan(t, p, form, unit, m, q, r)
  {
    m := RunEnd(t, p, Digit);
    q := FractionEnd(t, m, form);
    r := RunEnd(t, q, WhiteSpace);
  }

  lemma NumberAtComplete(t: string, i: nat, kw: string, form: NumberForm, unit: string,
                         p: nat, m: nat, q: nat, r: nat)
    requires UnitOk(unit)
    requires NumberSpan(t, i, kw, form, unit, p, m, q, r)
    ensures NumberAt(t, i, kw, form, unit) == Some(Captured(t, p, m, q))
  {
    NumberSpanForced(t, i, kw, form, unit, p, m, q, r);
  }

  /** A unit that starts with a letter begins with a character that is
      neither whitespace nor a digit nor a point. */
  lemma UnitStart(t: string, r: nat, unit: string)
    requires UnitOk(unit) && KeywordAt(t, r, unit)
    ensures r < |t| && !IsSpace(t[r]) && !IsDigit(t[r]) && t[r] != '.'
  {
    assert Fold(t[r + 0]) == Fold(unit[0]);
    FoldToLetter(t[r], unit[0]);
  }

  /** In a match every boundary is where the greedy attempt puts it. */
  lemma NumberSpanForced(t: string, i: nat, kw: string, form: NumberForm, unit: string,
                         p: nat, m: nat, q: nat, r: nat)
    requires UnitOk(unit)
    requires NumberSpan(t, i, kw, form, unit, p, m, q, r)
    ensures RunEnd(t, i + |kw|, WhiteSpace) == p
    ensures RunEnd(t, p, Digit) == m
    ensures FractionEnd(t, m, form) == q
    ensures RunEnd(t, q, WhiteSpace) == r
  {
    UnitStart(t, r, unit);
    RunEndExact(t, i + |kw|, p, WhiteSpace);
    TailForced(t, p, form, unit, m, q, r);
  }

  /** The same for the part after the whitespace. */
  lemma TailForced(t: string, p: nat, form: NumberForm, unit: string, m: nat, q: nat, r: nat)
    requires UnitOk(unit)
    requires TailSpan(t, p, form, unit, m, q, r)
    ensures RunEnd(t, p, Digit) == m
    ensures FractionEnd(t, m, form) == q
    ensures RunEnd(t, q, WhiteSpace) == r
  {
    UnitStart(t, r, unit);
    if r > q {
      assert IsSpace(t[q]);
    }
    RunEndExact(t, p, m, Digit);
    if q > m {
      RunEndExact(t, m + 1, q, Digit);
      assert IsDigit(t[m + 1]);
    }
    RunEndExact(t, q, r, WhiteSpace);
  }

  function NumberAttempt(kw: string, form: NumberForm, unit: string): (string, nat) -> Option<Decimal> {
    (u: string, i: nat) => NumberAt(u, i, kw, form, unit)
  }

  /** `t.match(/kw\s+(N)\s*unit/i)`, reduced to its capture. */
  function NumberFind(t: string, kw: string, form: NumberForm, unit: string): (d: Option<Decimal>)
  {
    Search(NumberAttempt(kw, form, unit), t)
  }

  lemma NumberAttemptIff(t: string, kw: string, form: NumberForm, unit: string)
    requires UnitOk(unit)
    ensures forall i: nat :: i <= |t| ==>
              (NumberAttempt(kw, form, unit)(t, i).Some? <==> NumberMatchesAt(t, i, kw, form, unit))
    ensures forall i: nat :: NumberMatchesAt(t, i, kw, form, unit) ==> i <= |t|
  {
    forall i: nat | i <= |t|
      ensures NumberAttempt(kw, form, unit)(t, i).Some? <==> NumberMatchesAt(t, i, kw, form, unit)
    {
      NumberAtMeaning(t, i, kw, form, unit);
    }
    forall i: nat | NumberMatchesAt(t, i, kw, form, unit) ensures i <= |t| {
      var p: nat, m: nat, q: nat, r: nat :| NumberSpan(t, i, kw, form, unit, p, m, q, r);
    }
  }

  /** Leftmost-match semantics of `t.match(/kw\s+(N)\s*unit/i)`. */
  lemma NumberFindMeaning(t: string, kw: string, form: NumberForm, unit: string)
    requires UnitOk(unit)
    ensures NumberFind(t, kw, form, unit).Some? <==> exists i: nat :: NumberMatchesAt(t, i, kw, form, unit)
    ensures NumberFind(t, kw, form, unit).Some? ==>
              exists i: nat, p: nat, m: nat, q: nat, r: nat ::
                && NumberSpan(t, i, kw, form, unit, p, m, q, r)
                && NumberFind(t, kw, form, unit) == Some(Captured(t, p, m, q))
                && forall j: nat :: j < i ==> !NumberMatchesAt(t, j, kw, form, unit)
  {
    var at := NumberAttempt(kw, form, unit);
    NumberAttemptIff(t, kw, form, unit);
    if NumberFind(t, kw, form, unit).Some? {
      var i :| 0 <= i <= |t| && at(t, i) == NumberFind(t, kw, form, unit)
                && forall j :: 0 <= j < i ==> at(t, j).None?;
      var p: nat, m: nat, q: nat, r: nat :| NumberSpan(t, i, kw, form, unit, p, m, q, r);
      NumberAtComplete(t, i, kw, form, unit, p, m, q, r);
      forall j: nat | j < i ensures !NumberMatchesAt(t, j, kw, form, unit) {
        assert at(t, j).None?;
      }
    } else {
      forall i: nat | NumberMatchesAt(t, i, kw, form, unit) ensures at(t, i).Some? {
      }
    }
  }

  /** What a capture of the number part looks like: one or more integer
      digits (no more than the form allows), and fraction digits only when
      the form has a fraction. */
  predicate Fits(d: Decimal, form: NumberForm) {
    && |d.intDigits| >= 1
    && AllDigits(d.intDigits)
    && AllDigits(d.fracDigits)
    && (form.maxIntDigits.Some? ==> |d.intDigits| <= form.maxIntDigits.value)
    && (!form.fraction ==> d.fracDigits == [])
  }

  lemma CapturedFits(t: string, p: nat, form: NumberForm, unit: string, m: nat, q: nat, r: nat)
    requires TailSpan(t, p, form, unit, m, q, r) && r <= |t|
    ensures Fits(Captured(t, p, m, q), form)
  {
    var d := Captured(t, p, m, q);
    forall j | 0 <= j < |d.intDigits| ensures IsDigit(d.intDigits[j]) {
      assert d.intDigits[j] == t[p + j];
    }
    forall j | 0 <= j < |d.fracDigits| ensures IsDigit(d.fracDigits[j]) {
      assert d.fracDigits[j] == t[m + 1 + j];
    }
  }

  /** Every capture the search returns fits the form. */
  lemma NumberFindFits(t: string, kw: string, form: NumberForm, unit: string)
    requires UnitOk(unit)
    ensures NumberFind(t, kw, form, unit).Some? ==> Fits(NumberFind(t, kw, form, unit).value, form)
  {
    NumberFindMeaning(t, kw, form, unit);
    if NumberFind(t, kw, form, unit).Some? {
      var i: nat, p: nat, m: nat, q: nat, r: nat :|
        NumberSpan(t, i, kw, form, unit, p, m, q, r) && NumberFind(t, kw, form, unit) == Some(Captured(t, p, m, q));
      CapturedFits(t, p, form, unit, m, q, r);
    }
  }

  // ------------------------------------------------------------ kw\s+(\d+)

  /** A match of `kw\s+(\d+)` at i capturing t[p..q]. */
  ghost predicate DigitsSpan(t: string, i: nat, kw: string, p: nat, q: nat) {
    && KeywordAt(t, i, kw)
    && i + |kw| < p < q
    && AllIn(t, i + |kw|, p, WhiteSpace)
    && AllIn(t, p, q, Digit)
  }

  ghost predicate DigitsMatchesAt(t: string, i: nat, kw: string) {
    exists p: nat, q: nat :: DigitsSpan(t, i, kw, p, q)
  }

  /** The match `\d+` prefers: among the matches at i, the one reaching furthest. */
  ghost predicate DigitsChosen(t: string, i: nat, kw: string, p: nat, q: nat) {
    && DigitsSpan(t, i, kw, p, q)
    && forall p': nat, q': nat :: DigitsSpan(t, i, kw, p', q') ==> q' <= q
  }

  function DigitsAt(t: string, i: nat, kw: string): (r: Option<string>)
    ensures r.Some? ==> |r.value| >= 1 && AllDigits(r.value)
  {
    if !KeywordAt(t, i, kw) then None
    else
      var p := RunEnd(t, i + |kw|, WhiteSpace);
      var q := RunEnd(t, p, Digit);
      if p > i + |kw| && q > p then Some(t[p..q]) else None
  }

  /** The attempt succeeds exactly when the pattern matches at i, and it
      returns the capture of the longest match there. */
  lemma DigitsAtMeaning(t: string, i: nat, kw: string)
    ensures DigitsAt(t, i, kw).Some? <==> DigitsMatchesAt(t, i, kw)
    ensures DigitsAt(t, i, kw).Some? ==>
              exists p: nat, q: nat :: DigitsChosen(t, i, kw, p, q) && DigitsAt(t, i, kw) == Some(t[p..q])
  {
    if KeywordAt(t, i, kw) {
      var p := RunEnd(t, i + |kw|, WhiteSpace);
      var q := RunEnd(t, p, Digit);
      forall p': nat, q': nat | DigitsSpan(t, i, kw, p', q')
        ensures p' == p && q' <= q && DigitsAt(t, i, kw).Some?
      {
        RunEndExact(t, i + |kw|, p', WhiteSpace);
        RunEndCovers(t, p, q', Digit);
      }
      if DigitsAt(t, i, kw).Some? {
        assert DigitsChosen(t, i, kw, p, q);
      }
    }
  }

  function DigitsAttempt(kw: string): (string, nat) -> Option<string> {
    (u: string, i: nat) => DigitsAt(u, i, kw)
  }

  /** `t.match(/kw\s+(\d+)/i)`, reduced to its capture. */
  function DigitsFind(t: string, kw: string): (r: Option<string>)
    ensures r.Some? ==> |r.value| >= 1 && AllDigits(r.value)
  {
    Search(DigitsAttempt(kw), t)
  }

  lemma DigitsAttemptIff(t: string, kw: string)
    ensures forall i: nat :: i <= |t| ==> (DigitsAttempt(kw)(t, i).Some? <==> DigitsMatchesAt(t, i, kw))
    ensures forall i: nat :: DigitsMatchesAt(t, i, kw) ==> i <= |t|
  {
    forall i: nat | i <= |t| ensures DigitsAttempt(kw)(t, i).Some? <==> DigitsMatchesAt(t, i, kw) {
      DigitsAtMeaning(t, i, kw);
    }
    forall i: nat | DigitsMatchesAt(t, i, kw) ensures i <= |t| {
      var p: nat, q: nat :| DigitsSpan(t, i, kw, p, q);
    }
  }

  /** Leftmost-match semantics of `t.match(/kw\s+(\d+)/i)`. */
  lemma DigitsFindMeaning(t: string, kw: string)
    ensures DigitsFind(t, kw).Some? <==> exists i: nat :: DigitsMatchesAt(t, i, kw)
    ensures DigitsFind(t, kw).Some? ==>
              exists i: nat, p: nat, q: nat ::
                && DigitsChosen(t, i, kw, p, q)
                && DigitsFind(t, kw) == Some(t[p..q])
                && forall j: nat :: j < i ==> !DigitsMatchesAt(t, j, kw)
  {
    var at := DigitsAttempt(kw);
    DigitsAttemptIff(t, kw);
    if DigitsFind(t, kw).Some? {
      var i :| 0 <= i <= |t| && at(t, i) == DigitsFind(t, kw)
                && forall j :: 0 <= j < i ==> at(t, j).None?;
      DigitsAtMeaning(t, i, kw);
      forall j: nat | j < i ensures !DigitsMatchesAt(t, j, kw) {
        assert at(t, j).None?;
      }
    } else {
      forall i: nat | DigitsMatchesAt(t, i, kw) ensures at(t, i).Some? {
      }
    }
  }
}
