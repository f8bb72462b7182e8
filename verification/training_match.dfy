/** The pattern `Training\s+([SCMR])\s*@RPE\s*(\d{1,2})` under the `i` flag. */
module TrainingMatch {
  import opened Wrappers
  import opened Chars
  import opened Text
  import opened Scan

  const Keyword: string := "training"
  const Marker: string := "@rpe"

  /** `[SCMR]` under the `i` flag. */
  const Kinds: set<char> := {'S', 'C', 'M', 'R', 's', 'c', 'm', 'r'}

  /** The two captures: the session type letter and the RPE digits. */
  datatype Session = Session(kind: char, rpe: string)

  /** A match at i: the type letter at p, the marker at a, the RPE digits t[q..e]. */
  ghost predicate TrainingSpan(t: string, i: nat, p: nat, a: nat, q: nat, e: nat) {
    && KeywordAt(t, i, Keyword)
    && i + |Keyword| < p < |t|
    && AllIn(t, i + |Keyword|, p, WhiteSpace)
    && t[p] in Kinds
    && p + 1 <= a
    && AllIn(t, p + 1, a, WhiteSpace)
    && KeywordAt(t, a, Marker)
    && a + |Marker| <= q
    && AllIn(t, a + |Marker|, q, WhiteSpace)
    && q < e <= q + 2
    && AllIn(t, q, e, Digit)
  }

  ghost predicate TrainingMatchesAt(t: string, i: nat) {
    exists p: nat, a: nat, q: nat, e: nat :: TrainingSpan(t, i, p, a, q, e)
  }

  /** The match `\d{1,2}` prefers: the one with the most digits. */
  ghost predicate TrainingChosen(t: string, i: nat, p: nat, a: nat, q: nat, e: nat) {
    && TrainingSpan(t, i, p, a, q, e)
    && forall p': nat, a': nat, q': nat, e': nat :: TrainingSpan(t, i, p', a', q', e') ==> e' <= e
  }

  function Min(x: nat, y: nat): nat {
    if x <= y then x else y
  }

  /** The attempt at i. None of the characters after a greedy whitespace run
      (a type letter, `@`, a digit) is whitespace, so no run gives anything back. */
  function TrainingAt(t: string, i: nat): (r: Option<Session>)
  {
    if !KeywordAt(t, i, Keyword) then None
    else
      var p := RunEnd(t, i + |Keyword|, WhiteSpace);
      if p == i + |Keyword| || p == |t| || t[p] !in Kinds then None
      else
        var a := RunEnd(t, p + 1, WhiteSpace);
        if !KeywordAt(t, a, Marker) then None
        else
          var q := RunEnd(t, a + |Marker|, WhiteSpace);
          var e := RunEnd(t, q, Digit);
          if e == q then None else Some(Session(t[p], t[q..Min(e, q + 2)]))
  }

  /** The marker begins with `@`, which is not whitespace. */
  lemma MarkerStart(t: string, a: nat)
    requires KeywordAt(t, a, Marker)
    ensures a < |t| && t[a] == '@'
  {
    assert Fold(t[a + 0]) == Fold(Marker[0]);
  }

  /** In a match the letter, the marker and the digits sit where the attempt looks for them. */
  lemma TrainingSpanForced(t: string, i: nat, p: nat, a: nat, q: nat, e: nat)
    requires TrainingSpan(t, i, p, a, q, e)
    ensures RunEnd(t, i + |Keyword|, WhiteSpace) == p
    ensures RunEnd(t, p + 1, WhiteSpace) == a
    ensures RunEnd(t, a + |Marker|, WhiteSpace) == q
    ensures e <= RunEnd(t, q, Digit)
  {
    RunEndExact(t, i + |Keyword|, p, WhiteSpace);
    MarkerStart(t, a);
    RunEndExact(t, p + 1, a, WhiteSpace);
    RunEndExact(t, a + |Marker|, q, WhiteSpace);
    RunEndCovers(t, q, e, Digit);
  }

  /** A successful attempt returns the preferred match. */
  lemma TrainingAtSound(t: string, i: nat) returns (p: nat, a: nat, q: nat, e: nat)
    requires TrainingAt(t, i).Some?
    ensures TrainingChosen(t, i, p, a, q, e) && TrainingAt(t, i) == Some(Session(t[p], t[q..e]))
  {
    p, a, q, e := TrainingAtSpan(t, i);
    forall p': nat, a': nat, q': nat, e': nat | TrainingSpan(t, i, p', a', q', e') ensures e' <= e {
      TrainingSpanForced(t, i, p', a', q', e');
    }
  }

  /** A successful attempt returns a match, with as many digits as there are, up to two. */
  lemma TrainingAtSpan(t: string, i: nat) returns (p: nat, a: nat, q: nat, e: nat)
    requires TrainingAt(t, i).Some?
    ensures TrainingSpan(t, i, p, a, q, e) && TrainingAt(t, i) == Some(Session(t[p], t[q..e]))
    ensures p == RunEnd(t, i + |Keyword|, WhiteSpace)
    ensures a == RunEnd(t, p + 1, WhiteSpace)
    ensures q == RunEnd(t, a + |Marker|, WhiteSpace)
    ensures e == Min(RunEnd(t, q, Digit), q + 2)
  {
    p := RunEnd(t, i + |Keyword|, WhiteSpace);
    a := RunEnd(t, p + 1, WhiteSpace);
    q := RunEnd(t, a + |Marker|, WhiteSpace);
    e := Min(RunEnd(t, q, Digit), q + 2);
  }

  /** The attempt succeeds exactly when the pattern matches at i, and it
      returns the captures of the match the engine prefers. */
  lemma TrainingAtMeaning(t: string, i: nat)
    ensures TrainingAt(t, i).Some? <==> TrainingMatchesAt(t, i)
    ensures TrainingAt(t, i).Some? ==>
              exists p: nat, a: nat, q: nat, e: nat ::
                TrainingChosen(t, i, p, a, q, e) && TrainingAt(t, i) == Some(Session(t[p], t[q..e]))
  {
    if TrainingAt(t, i).Some? {
      var p, a, q, e := TrainingAtSound(t, i);
    }
    forall p: nat, a: nat, q: nat, e: nat | TrainingSpan(t, i, p, a, q, e) ensures TrainingAt(t, i).Some? {
      TrainingSpanForced(t, i, p, a, q, e);
    }
  }

  const Attempt: (string, nat) -> Option<Session> := (u: string, i: nat) => TrainingAt(u, i)

  /** `t.match(/Training\s+([SCMR])\s*@RPE\s*(\d{1,2})/i)`, reduced to its captures. */
  function TrainingFind(t: string): (r: Option<Session>)
  {
    Search(Attempt, t)
  }

  lemma AttemptIff(t: string)
    ensures forall i: nat :: i <= |t| ==> (Attempt(t, i).Some? <==> TrainingMatchesAt(t, i))
    ensures forall i: nat :: TrainingMatchesAt(t, i) ==> i <= |t|
  {
    forall i: nat | i <= |t| ensures Attempt(t, i).Some? <==> TrainingMatchesAt(t, i) {
      TrainingAtMeaning(t, i);
    }
    forall i: nat | TrainingMatchesAt(t, i) ensures i <= |t| {
      var p: nat, a: nat, q: nat, e: nat :| TrainingSpan(t, i, p, a, q, e);
    }
  }

  /** Leftmost-match semantics of the pattern. */
  lemma TrainingFindMeaning(t: string)
    ensures TrainingFind(t).Some? <==> exists i: nat :: TrainingMatchesAt(t, i)
    ensures TrainingFind(t).Some? ==>
              exists i: nat, p: nat, a: nat, q: nat, e: nat ::
                && TrainingChosen(t, i, p, a, q, e)
                && TrainingFind(t) == Some(Session(t[p], t[q..e]))
                && forall j: nat :: j < i ==> !TrainingMatchesAt(t, j)
  {
    AttemptIff(t);
    if TrainingFind(t).Some? {
      var i :| 0 <= i <= |t| && Attempt(t, i) == TrainingFind(t)
                && forall j :: 0 <= j < i ==> Attempt(t, j).None?;
      TrainingAtMeaning(t, i);
      forall j: nat | j < i ensures !TrainingMatchesAt(t, j) {
        assert Attempt(t, j).None?;
      }
    } else {
      forall i: nat | TrainingMatchesAt(t, i) ensures Attempt(t, i).Some? {
      }
    }
  }

  /** What the captures look like: a type letter from the class, and one or
      two digits. */
  lemma TrainingFindShape(t: string)
    ensures TrainingFind(t).Some? ==>
              var s := TrainingFind(t).value;
              s.kind in Kinds && 1 <= |s.rpe| <= 2 && AllIn(s.rpe, 0, |s.rpe|, Digit)
  {
    TrainingFindMeaning(t);
    if TrainingFind(t).Some? {
      var i: nat, p: nat, a: nat, q: nat, e: nat :|
        TrainingChosen(t, i, p, a, q, e) && TrainingFind(t) == Some(Session(t[p], t[q..e]));
      AllInSlice(t, q, e, Digit);
    }
  }
}
