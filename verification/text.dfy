/** Runs of characters, `trim`, and the whitespace collapse
    `text.replace(/\s+/g, " ").trim()` that both field extractors apply first. */
module Text {
  import opened Chars

  /** Every character of t[a..b] is in class k. */
  predicate AllIn(t: string, a: nat, b: nat, k: Class) {
    a <= b <= |t| && forall j :: a <= j < b ==> In(t[j], k)
  }

  /** Where the longest run of class-k characters starting at p ends: how far
      a greedy `k*` (or `k+`) reaches before it has to give anything back. */
  function RunEnd(t: string, p: nat, k: Class): (e: nat)
    requires p <= |t|
    ensures p <= e <= |t|
    ensures AllIn(t, p, e, k)
    ensures e == |t| || !In(t[e], k)
    decreases |t| - p
  {
    if p < |t| && In(t[p], k) then RunEnd(t, p + 1, k) else p
  }

  /** A run that is followed by a character outside k (or the end) is the longest run. */
  lemma RunEndExact(t: string, a: nat, b: nat, k: Class)
    requires AllIn(t, a, b, k)
    requires b == |t| || !In(t[b], k)
    ensures RunEnd(t, a, k) == b
  {
  }

  /** Every k-run starting at a lies inside the longest one. */
  lemma RunEndCovers(t: string, a: nat, b: nat, k: Class)
    requires AllIn(t, a, b, k)
    ensures b <= RunEnd(t, a, k)
  {
  }

  /** A run cut out of its string keeps its class. */
  lemma AllInSlice(t: string, a: nat, b: nat, k: Class)
    requires AllIn(t, a, b, k)
    ensures AllIn(t[a..b], 0, b - a, k)
  {
    var s := t[a..b];
    forall j | 0 <= j < b - a ensures In(s[j], k) {
      assert s[j] == t[a + j];
    }
  }

  // ---------------------------------------------------------------- trim

  function TrimStart(s: string): (r: string)
    ensures |r| <= |s| && r == s[|s| - |r|..]
    ensures AllIn(s, 0, |s| - |r|, WhiteSpace)
    ensures |r| == 0 || !IsSpace(r[0])
  {
    if |s| > 0 && IsSpace(s[0]) then TrimStart(s[1..]) else s
  }

  function TrimEnd(s: string): (r: string)
    ensures |r| <= |s| && r == s[..|r|]
    ensures AllIn(s, |r|, |s|, WhiteSpace)
    ensures |r| == 0 || !IsSpace(r[|r| - 1])
  {
    if |s| > 0 && IsSpace(s[|s| - 1]) then TrimEnd(s[..|s| - 1]) else s
  }

  /** `String.prototype.trim`: strips the same whitespace set as `\s` from both ends. */
  function Trim(s: string): (r: string)
    ensures |r| == 0 || (!IsSpace(r[0]) && !IsSpace(r[|r| - 1]))
  {
    TrimEnd(TrimStart(s))
  }

  /** Trim keeps the contiguous piece s[a..b] of its input and removes only whitespace. */
  lemma TrimSlice(s: string) returns (a: nat, b: nat)
    ensures a <= b <= |s| && Trim(s) == s[a..b]
    ensures AllIn(s, 0, a, WhiteSpace) && AllIn(s, b, |s|, WhiteSpace)
  {
    var u := TrimStart(s);
    a := |s| - |u|;
    b := TrimEndSlice(s, a, u);
  }

  /** Trimming the end of the suffix u == s[a..] keeps s[a..b] and drops only whitespace. */
  lemma TrimEndSlice(s: string, a: nat, u: string) returns (b: nat)
    requires a <= |s| && u == s[a..]
    ensures a <= b <= |s| && TrimEnd(u) == s[a..b] && AllIn(s, b, |s|, WhiteSpace)
  {
    var r := TrimEnd(u);
    b := a + |r|;
    forall j | b <= j < |s| ensures IsSpace(s[j]) {
      assert s[j] == u[j - a];
    }
  }

  // ------------------------------------------------------------ collapse

  /** `replace(/\s+/g, " ")`: every maximal whitespace run becomes one space. */
  function Squeeze(s: string): (r: string)
    ensures |s| > 0 ==> |r| > 0 && (IsSpace(s[0]) <==> r[0] == ' ')
    ensures |s| > 0 && !IsSpace(s[0]) ==> r[0] == s[0]
  {
    if |s| == 0 then []
    else if IsSpace(s[0]) then
      if |s| > 1 && IsSpace(s[1]) then Squeeze(s[1..]) else [' '] + Squeeze(s[1..])
    else [s[0]] + Squeeze(s[1..])
  }

  /** Text that does not end in whitespace is squeezed on its own: the
      replacement never reaches across its last character. */
  lemma {:induction false} SqueezeAppend(a: string, c: string)
    requires |a| == 0 || !IsSpace(a[|a| - 1])
    ensures Squeeze(a + c) == Squeeze(a) + Squeeze(c)
    decreases |a|
  {
    if |a| == 0 {
      assert a + c == c;
    } else {
      var a', ac := a[1..], a + c;
      assert ac[0] == a[0] && ac[1..] == a' + c;
      SqueezeAppend(a', c);
      if !IsSpace(a[0]) {
        assert Squeeze(ac) == [a[0]] + (Squeeze(a') + Squeeze(c));
        assert Squeeze(a) == [a[0]] + Squeeze(a');
      } else {
        assert |a| > 1 && ac[1] == a[1];
        if !IsSpace(a[1]) {
          assert Squeeze(ac) == [' '] + (Squeeze(a') + Squeeze(c));
          assert Squeeze(a) == [' '] + Squeeze(a');
        } else {
          assert Squeeze(ac) == Squeeze(a') + Squeeze(c);
          assert Squeeze(a) == Squeeze(a');
        }
      }
    }
  }

  /** A whitespace run followed by a non-whitespace character (or by the end)
      becomes exactly one space. */
  lemma {:induction false} SqueezeRun(w: string, b: string)
    requires |w| > 0 && AllIn(w, 0, |w|, WhiteSpace)
    requires |b| == 0 || !IsSpace(b[0])
    ensures Squeeze(w + b) == " " + Squeeze(b)
    decreases |w|
  {
    assert (w + b)[0] == w[0] && (w + b)[1..] == w[1..] + b;
    if |w| > 1 {
      assert (w + b)[1] == w[1];
      SqueezeRun(w[1..], b);
    }
  }

  /** `replace(/\s+/g, " ")` on a + w + b, where w is a maximal whitespace run
      between a and b, puts exactly one space between the replacements of a and b. */
  lemma {:induction false} SqueezeJoin(a: string, w: string, b: string)
    requires |a| == 0 || !IsSpace(a[|a| - 1])
    requires |w| > 0 && AllIn(w, 0, |w|, WhiteSpace)
    requires |b| == 0 || !IsSpace(b[0])
    ensures Squeeze(a + w + b) == Squeeze(a) + " " + Squeeze(b)
  {
    assert a + w + b == a + (w + b);
    SqueezeAppend(a, w + b);
    SqueezeRun(w, b);
  }

  /** Text without whitespace is left unchanged by the replacement. */
  lemma {:induction false} SqueezeNoSpace(s: string)
    requires forall j :: 0 <= j < |s| ==> !IsSpace(s[j])
    ensures Squeeze(s) == s
    decreases |s|
  {
    if |s| > 0 {
      SqueezeNoSpace(s[1..]);
    }
  }

  /** The whitespace collapse both extractors run before matching. */
  function Collapse(s: string): string {
    Trim(Squeeze(s))
  }

  /** The only whitespace is a lone ' ' (no tab, newline or other space, and never two in a row). */
  predicate SingleSpaced(s: string) {
    && (forall j :: 0 <= j < |s| && IsSpace(s[j]) ==> s[j] == ' ')
    && (forall j :: 0 <= j < |s| - 1 && s[j] == ' ' ==> s[j + 1] != ' ')
  }

  /** What Collapse produces: single-spaced, with no whitespace at either end. */
  predicate Collapsed(s: string) {
    && SingleSpaced(s)
    && (|s| == 0 || (!IsSpace(s[0]) && !IsSpace(s[|s| - 1])))
  }

  /** The non-whitespace characters of s, in order. */
  function Visible(s: string): string {
    if |s| == 0 then [] else (if IsSpace(s[0]) then [] else [s[0]]) + Visible(s[1..])
  }

  lemma {:induction false} SqueezeSingleSpaced(s: string)
    ensures SingleSpaced(Squeeze(s))
    decreases |s|
  {
    if |s| > 0 {
      SqueezeSingleSpaced(s[1..]);
      var rest := Squeeze(s[1..]);
      if IsSpace(s[0]) && !(|s| > 1 && IsSpace(s[1])) {
        assert Squeeze(s) == [' '] + rest;
        assert |rest| > 0 ==> rest[0] != ' ';
      } else if !IsSpace(s[0]) {
        assert Squeeze(s) == [s[0]] + rest;
      }
    }
  }

  lemma SliceSingleSpaced(s: string, a: nat, b: nat)
    requires a <= b <= |s|
    requires SingleSpaced(s)
    ensures SingleSpaced(s[a..b])
  {
    var u := s[a..b];
    forall j | 0 <= j < |u| - 1 && u[j] == ' ' ensures u[j + 1] != ' ' {
      assert u[j] == s[a + j] && u[j + 1] == s[a + j + 1];
    }
  }

  lemma TrimSingleSpaced(s: string)
    requires SingleSpaced(s)
    ensures Collapsed(Trim(s))
  {
    var a, b := TrimSlice(s);
    SliceSingleSpaced(s, a, b);
  }

  /** Collapse always yields a collapsed string. */
  lemma CollapseIsCollapsed(s: string)
    ensures Collapsed(Collapse(s))
  {
    SqueezeSingleSpaced(s);
    TrimSingleSpaced(Squeeze(s));
  }

  lemma {:induction false} SqueezeFixes(s: string)
    requires SingleSpaced(s)
    ensures Squeeze(s) == s
    decreases |s|
  {
    if |s| > 0 {
      SliceSingleSpaced(s, 1, |s|);
      SqueezeFixes(s[1..]);
      if IsSpace(s[0]) && |s| > 1 {
        assert s[0] == ' ' && s[1] != ' ';
      }
    }
  }

  /** A collapsed string is left alone by Collapse. */
  lemma CollapseFixes(s: string)
    requires Collapsed(s)
    ensures Collapse(s) == s
  {
    SqueezeFixes(s);
  }

  /** `replace(/\s+/g, " ").trim()` is idempotent. */
  lemma CollapseIdempotent(s: string)
    ensures Collapse(Collapse(s)) == Collapse(s)
  {
    CollapseIsCollapsed(s);
    CollapseFixes(Collapse(s));
  }

  lemma {:induction false} VisibleConcat(a: string, b: string)
    ensures Visible(a + b) == Visible(a) + Visible(b)
    decreases |a|
  {
    if |a| == 0 {
      assert a + b == b;
    } else {
      assert (a + b)[0] == a[0];
      assert (a + b)[1..] == a[1..] + b;
      VisibleConcat(a[1..], b);
    }
  }

  lemma {:induction false} VisibleSqueeze(s: string)
    ensures Visible(Squeeze(s)) == Visible(s)
    decreases |s|
  {
    if |s| > 0 {
      VisibleSqueeze(s[1..]);
      var rest := Squeeze(s[1..]);
      if IsSpace(s[0]) {
        if !(|s| > 1 && IsSpace(s[1])) {
          VisibleConcat([' '], rest);
        }
      } else {
        VisibleConcat([s[0]], rest);
      }
    }
  }

  lemma {:induction false} VisibleTrimStart(s: string)
    ensures Visible(TrimStart(s)) == Visible(s)
    decreases |s|
  {
    if |s| > 0 && IsSpace(s[0]) {
      VisibleTrimStart(s[1..]);
    }
  }

  lemma {:induction false} VisibleTrimEnd(s: string)
    ensures Visible(TrimEnd(s)) == Visible(s)
    decreases |s|
  {
    if |s| > 0 && IsSpace(s[|s| - 1]) {
      var init := s[..|s| - 1];
      VisibleTrimEnd(init);
      assert s == init + [s[|s| - 1]];
      VisibleConcat(init, [s[|s| - 1]]);
      assert Visible([s[|s| - 1]]) == [];
    }
  }

  lemma VisibleTrim(s: string)
    ensures Visible(Trim(s)) == Visible(s)
  {
    VisibleTrimStart(s);
    VisibleTrimEnd(TrimStart(s));
  }

  /** Collapse only changes whitespace: the visible characters survive, in order. */
  lemma CollapseKeepsVisible(s: string)
    ensures Visible(Collapse(s)) == Visible(s)
  {
    VisibleSqueeze(s);
    VisibleTrim(Squeeze(s));
  }
}
