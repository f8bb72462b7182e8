/** Patterns of the form `kw\s+([C])` with the `i` flag, where C is a set of
    characters: `Mood\s+([1-5])`, `Energy\s+([1-5])` and `after14:00\s+(Y|N)`. */
module ClassMatch {
  import opened Wrappers
  import opened Chars
  import opened Text
  import opened Scan

  /** No character of the class is whitespace. */
  ghost predicate SpaceFree(cls: set<char>) {
    forall c :: c in cls ==> !IsSpace(c)
  }

  /** A match of the pattern at i whose class character sits at p. */
  ghost predicate ClassSpan(t: string, i: nat, kw: string, cls: set<char>, p: nat) {
    && KeywordAt(t, i, kw)
    && i + |kw| < p < |t|
    && AllIn(t, i + |kw|, p, WhiteSpace)
    && t[p] in cls
  }

  ghost predicate ClassMatchesAt(t: string, i: nat, kw: string, cls: set<char>) {
    exists p: nat :: ClassSpan(t, i, kw, cls, p)
  }

  /** The attempt at i. `\s+` first takes the whole whitespace run; giving any
      of it back would leave whitespace where the class character must be. */
  function ClassAt(t: string, i: nat, kw: string, cls: set<char>): (r: Option<char>)
    ensures r.Some? ==> r.value in cls
  {
    if !KeywordAt(t, i, kw) then None
    else
      var p := RunEnd(t, i + |kw|, WhiteSpace);
      if p > i + |kw| && p < |t| && t[p] in cls then Some(t[p]) else None
  }

  /** The attempt succeeds exactly when the pattern matches at i, and every
      match at i captures the character the attempt returns. */
  lemma ClassAtMeaning(t: string, i: nat, kw: string, cls: set<char>)
    requires SpaceFree(cls)
    ensures ClassAt(t, i, kw, cls).Some? <==> ClassMatchesAt(t, i, kw, cls)
    ensures forall p: nat :: ClassSpan(t, i, kw, cls, p) ==> ClassAt(t, i, kw, cls) == Some(t[p])
  {
    if ClassAt(t, i, kw, cls).Some? {
      var p := RunEnd(t, i + |kw|, WhiteSpace);
      assert ClassSpan(t, i, kw, cls, p);
    }
    forall p: nat | ClassSpan(t, i, kw, cls, p) ensures ClassAt(t, i, kw, cls) == Some(t[p]) {
      RunEndExact(t, i + |kw|, p, WhiteSpace);
    }
  }

  /** The attempt as a function of the text and the position. */
  function ClassAttempt(kw: string, cls: set<char>): (string, nat) -> Option<char> {
    (u: string, i: nat) => ClassAt(u, i, kw, cls)
  }

  /** `t.match(/kw\s+([C])/i)`, reduced to its capture. */
  function ClassFind(t: string, kw: string, cls: set<char>): (r: Option<char>)
    ensures r.Some? ==> r.value in cls
  {
    Search(ClassAttempt(kw, cls), t)
  }

  /** Where the attempt succeeds, the pattern matches, and nowhere else. */
  lemma ClassAttemptIff(t: string, kw: string, cls: set<char>)
    requires SpaceFree(cls)
    ensures forall i: nat :: i <= |t| ==> (ClassAttempt(kw, cls)(t, i).Some? <==> ClassMatchesAt(t, i, kw, cls))
    ensures forall i: nat :: ClassMatchesAt(t, i, kw, cls) ==> i <= |t|
  {
    forall i: nat | i <= |t|
      ensures ClassAttempt(kw, cls)(t, i).Some? <==> ClassMatchesAt(t, i, kw, cls)
    {
      ClassAtMeaning(t, i, kw, cls);
    }
    forall i: nat | ClassMatchesAt(t, i, kw, cls) ensures i <= |t| {
      var p: nat :| ClassSpan(t, i, kw, cls, p);
    }
  }

  /** Leftmost-match semantics: a capture exists exactly when the pattern
      matches somewhere, and it is the class character of a match at the
      leftmost position where the pattern matches. */
  lemma ClassFindMeaning(t: string, kw: string, cls: set<char>)
    requires SpaceFree(cls)
    ensures ClassFind(t, kw, cls).Some? <==> exists i: nat :: ClassMatchesAt(t, i, kw, cls)
    ensures ClassFind(t, kw, cls).Some? ==>
              exists i: nat, p: nat :: && ClassSpan(t, i, kw, cls, p)
                                       && ClassFind(t, kw, cls) == Some(t[p])
                                       && forall j: nat :: j < i ==> !ClassMatchesAt(t, j, kw, cls)
  {
    var at := ClassAttempt(kw, cls);
    ClassAttemptIff(t, kw, cls);
    if ClassFind(t, kw, cls).Some? {
      var i :| 0 <= i <= |t| && at(t, i) == ClassFind(t, kw, cls)
                && forall j :: 0 <= j < i ==> at(t, j).None?;
      var p: nat :| ClassSpan(t, i, kw, cls, p);
      ClassAtMeaning(t, i, kw, cls);
      forall j: nat | j < i ensures !ClassMatchesAt(t, j, kw, cls) {
        assert at(t, j).None?;
      }
    } else {
      forall i: nat | ClassMatchesAt(t, i, kw, cls) ensures at(t, i).Some? {
      }
    }
  }
}
