/** Patterns that capture free text after a keyword:
    - `kw\s*(.*)$` (Notes:) and `kw\s+(.+)$` (Flags): the rest of the string;
    - `kw\s+([^|]+)` (GI, Supplements/Creatine): everything up to the next `|`. */
module FreeTextMatch {
  import opened Wrappers
  import opened Chars
  import opened Text
  import opened Scan

  /** At least minSpace whitespace characters (greedy), then a greedy run of
      class-cls characters at least minLength long, which must reach the end
      of the string when toEnd holds (the pattern ends in `$`). */
  datatype TextForm = TextForm(minSpace: nat, cls: Class, minLength: nat, toEnd: bool)

  /** A match at i whose whitespace part is t[i+|kw|..q] and whose capture is t[q..e]. */
  ghost predicate TextSpan(t: string, i: nat, kw: string, form: TextForm, q: nat, e: nat) {
    && KeywordAt(t, i, kw)
    && i + |kw| + form.minSpace <= q
    && AllIn(t, i + |kw|, q, WhiteSpace)
    && q + form.minLength <= e
    && AllIn(t, q, e, form.cls)
    && (form.toEnd ==> e == |t|)
  }

  ghost predicate TextMatchesAt(t: string, i: nat, kw: string, form: TextForm) {
    exists q: nat, e: nat :: TextSpan(t, i, kw, form, q, e)
  }

  /** The match the engine reports at i: the whitespace part is as long as it
      can be, and then the captured part is as long as it can be. */
  ghost predicate TextChosen(t: string, i: nat, kw: string, form: TextForm, q: nat, e: nat) {
    && TextSpan(t, i, kw, form, q, e)
    && forall q': nat, e': nat :: TextSpan(t, i, kw, form, q', e') ==> q' < q || (q' == q && e' <= e)
  }

  /** Whether the captured part can start at q. */
  predicate TextStart(t: string, q: nat, form: TextForm)
    requires q <= |t|
  {
    var e := RunEnd(t, q, form.cls);
    q + form.minLength <= e && (form.toEnd ==> e == |t|)
  }

  /** The greedy whitespace part giving back one character at a time: the
      last start in [lo, hi] the captured part can begin at. */
  function LastStart(t: string, lo: nat, hi: nat, form: TextForm): (r: Option<nat>)
    requires lo <= hi <= |t|
    ensures r.Some? ==> lo <= r.value <= hi && TextStart(t, r.value, form)
    ensures forall q: nat :: lo <= q <= hi && (r.None? || r.value < q) ==> !TextStart(t, q, form)
    decreases hi
  {
    if TextStart(t, hi, form) then Some(hi)
    else if hi == lo then None
    else LastStart(t, lo, hi - 1, form)
  }

  /** The attempt at i. */
  function TextAt(t: string, i: nat, kw: string, form: TextForm): (r: Option<string>)
  {
    if !KeywordAt(t, i, kw) then None
    else
      var k := i + |kw|;
      var w := RunEnd(t, k, WhiteSpace);
      if w < k + form.minSpace then None
      else
        match LastStart(t, k + form.minSpace, w, form)
        case None => None
        case Some(q) => Some(t[q..RunEnd(t, q, form.cls)])
  }

  /** The attempt succeeds exactly when the pattern matches at i, and it
      returns the capture of the match the engine prefers. */
  lemma TextAtMeaning(t: string, i: nat, kw: string, form: TextForm)
    ensures TextAt(t, i, kw, form).Some? <==> TextMatchesAt(t, i, kw, form)
    ensures TextAt(t, i, kw, form).Some? ==>
              exists q: nat, e: nat :: TextChosen(t, i, kw, form, q, e) && TextAt(t, i, kw, form) == Some(t[q..e])
  {
    if TextAt(t, i, kw, form).Some? {
      var q, e := TextAtSound(t, i, kw, form);
    }
    forall q': nat, e': nat | TextSpan(t, i, kw, form, q', e') ensures TextAt(t, i, kw, form).Some? {
      TextSpanBounds(t, i, kw, form, q', e');
    }
  }

  /** A successful attempt returns the preferred match. */
  lemma TextAtSound(t: string, i: nat, kw: string, form: TextForm) returns (q: nat, e: nat)
    requires TextAt(t, i, kw, form).Some?
    ensures TextChosen(t, i, kw, form, q, e) && TextAt(t, i, kw, form) == Some(t[q..e])
  {
    q, e := TextAtSpan(t, i, kw, form);
    forall q': nat, e': nat | TextSpan(t, i, kw, form, q', e') ensures q' < q || (q' == q && e' <= e) {
      TextSpanBounds(t, i, kw, form, q', e');
    }
  }

  /** A successful attempt returns a match: the one starting its capture at
      the last start the whitespace part can give back to. */
  lemma TextAtSpan(t: string, i: nat, kw: string, form: TextForm) returns (q: nat, e: nat)
    requires TextAt(t, i, kw, form).Some?
    ensures TextSpan(t, i, kw, form, q, e) && TextAt(t, i, kw, form) == Some(t[q..e])
    ensures var w := RunEnd(t, i + |kw|, WhiteSpace);
            && i + |kw| + form.minSpace <= w
            && LastStart(t, i + |kw| + form.minSpace, w, form) == Some(q)
            && e == RunEnd(t, q, form.cls)
  {
    var k := i + |kw|;
    var w := RunEnd(t, k, WhiteSpace);
    q := LastStart(t, k + form.minSpace, w, form).value;
    e := RunEnd(t, q, form.cls);
    assert AllIn(t, k, q, WhiteSpace);
  }

  /** Where any match at i can start its capture, and how far the capture can reach. */
  lemma TextSpanBounds(t: string, i: nat, kw: string, form: TextForm, q: nat, e: nat)
    requires TextSpan(t, i, kw, form, q, e)
    ensures var w := RunEnd(t, i + |kw|, WhiteSpace);
            && i + |kw| + form.minSpace <= q <= w
            && LastStart(t, i + |kw| + form.minSpace, w, form).Some?
            && q <= LastStart(t, i + |kw| + form.minSpace, w, form).value
            && TextStart(t, q, form)
            && e <= RunEnd(t, q, form.cls)
  {
    RunEndCovers(t, i + |kw|, q, WhiteSpace);
    RunEndCovers(t, q, e, form.cls);
    assert TextStart(t, q, form);
  }

  function TextAttempt(kw: string, form: TextForm): (string, nat) -> Option<string> {
    (u: string, i: nat) => TextAt(u, i, kw, form)
  }

  /** `t.match(re)` for the pattern, reduced to its capture. */
  function TextFind(t: string, kw: string, form: TextForm): (r: Option<string>)
  {
    Search(TextAttempt(kw, form), t)
  }

  lemma TextAttemptIff(t: string, kw: string, form: TextForm)
    ensures forall i: nat :: i <= |t| ==> (TextAttempt(kw, form)(t, i).Some? <==> TextMatchesAt(t, i, kw, form))
    ensures forall i: nat :: TextMatchesAt(t, i, kw, form) ==> i <= |t|
  {
    forall i: nat | i <= |t| ensures TextAttempt(kw, form)(t, i).Some? <==> TextMatchesAt(t, i, kw, form) {
      TextAtMeaning(t, i, kw, form);
    }
    forall i: nat | TextMatchesAt(t, i, kw, form) ensures i <= |t| {
      var q: nat, e: nat :| TextSpan(t, i, kw, form, q, e);
    }
  }

  /** Leftmost-match semantics of `t.match(re)` for the pattern. */
  lemma TextFindMeaning(t: string, kw: string, form: TextForm)
    ensures TextFind(t, kw, form).Some? <==> exists i: nat :: TextMatchesAt(t, i, kw, form)
    ensures TextFind(t, kw, form).Some? ==>
              exists i: nat, q: nat, e: nat ::
                && TextChosen(t, i, kw, form, q, e)
                && TextFind(t, kw, form) == Some(t[q..e])
                && forall j: nat :: j < i ==> !TextMatchesAt(t, j, kw, form)
  {
    var at := TextAttempt(kw, form);
    TextAttemptIff(t, kw, form);
    if TextFind(t, kw, form).Some? {
      var i :| 0 <= i <= |t| && at(t, i) == TextFind(t, kw, form)
                && forall j :: 0 <= j < i ==> at(t, j).None?;
      TextAtMeaning(t, i, kw, form);
      forall j: nat | j < i ensures !TextMatchesAt(t, j, kw, form) {
        assert at(t, j).None?;
      }
    } else {
      forall i: nat | TextMatchesAt(t, i, kw, form) ensures at(t, i).Some? {
      }
    }
  }

  /** Every capture lies in the class and is long enough. */
  lemma TextFindShape(t: string, kw: string, form: TextForm)
    ensures TextFind(t, kw, form).Some? ==>
              var s := TextFind(t, kw, form).value;
              |s| >= form.minLength && AllIn(s, 0, |s|, form.cls)
  {
    TextFindMeaning(t, kw, form);
    if TextFind(t, kw, form).Some? {
      var i: nat, q: nat, e: nat :| TextChosen(t, i, kw, form, q, e) && TextFind(t, kw, form) == Some(t[q..e]);
      AllInSlice(t, q, e, form.cls);
    }
  }
}
