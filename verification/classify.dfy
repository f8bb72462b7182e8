/** `detectEntryType`: which kind of check-in a message is. */
module Classify {
  import opened Chars
  import opened Scan

  datatype EntryType = AM | PM | Unknown

  /** `/^AM[:\-]/i` (and the same for PM): the tag at the very start of the
      text, followed by a colon or a hyphen. */
  predicate TaggedAs(t: string, tag: string) {
    KeywordAt(t, 0, tag) && |tag| < |t| && (t[|tag|] == ':' || t[|tag|] == '-')
  }

  /** `/\bword\b/i` matches at i, for a word that starts and ends with a word
      character: no word character right before it or right after it. */
  predicate WordAt(t: string, i: nat, w: string) {
    && KeywordAt(t, i, w)
    && (i == 0 || !IsWordChar(t[i - 1]))
    && (i + |w| == |t| || !IsWordChar(t[i + |w|]))
  }

  ghost predicate ContainsWord(t: string, w: string) {
    exists i: nat :: WordAt(t, i, w)
  }

  /** `/\bword\b/i.test(t)`, trying the positions from i on. */
  function WordFrom(t: string, w: string, i: nat): (b: bool)
    requires i <= |t|
    ensures b <==> exists j: nat :: i <= j && WordAt(t, j, w)
    decreases |t| - i
  {
    if WordAt(t, i, w) then true
    else if i == |t| then false
    else WordFrom(t, w, i + 1)
  }

  function HasWord(t: string, w: string): (b: bool)
    ensures b <==> ContainsWord(t, w)
  {
    WordFrom(t, w, 0)
  }

  /** The four tests in order; the first that passes decides. */
  function Detect(t: string): (r: EntryType)
    ensures r == AM <==> TaggedAs(t, "am") || (!TaggedAs(t, "pm") && ContainsWord(t, "sleep"))
    ensures r == PM <==> !TaggedAs(t, "am") && (TaggedAs(t, "pm") || (!ContainsWord(t, "sleep") && ContainsWord(t, "training")))
    ensures r == Unknown <==>
              !TaggedAs(t, "am") && !TaggedAs(t, "pm") && !ContainsWord(t, "sleep") && !ContainsWord(t, "training")
  {
    if TaggedAs(t, "am") then AM
    else if TaggedAs(t, "pm") then PM
    else if HasWord(t, "sleep") then AM
    else if HasWord(t, "training") then PM
    else Unknown
  }

  /** A text cannot carry both tags: they differ in their first letter. */
  lemma TagsExclusive(t: string)
    ensures !(TaggedAs(t, "am") && TaggedAs(t, "pm"))
  {
    if TaggedAs(t, "am") {
      assert Fold(t[0 + 0]) == Fold("am"[0]) == 'A';
      assert Fold("pm"[0]) == 'P';
    }
  }

  /** Whatever follows an `AM:`/`AM-` (or `PM:`/`PM-`) tag, in any mix of
      cases, the tag decides. */
  lemma TagDecides(tag: string, sep: char, rest: string)
    requires |tag| == 2 && (Fold(tag[0]) == 'A' || Fold(tag[0]) == 'P') && Fold(tag[1]) == 'M'
    requires sep == ':' || sep == '-'
    ensures Detect(tag + [sep] + rest) == (if Fold(tag[0]) == 'A' then AM else PM)
  {
    var t := tag + [sep] + rest;
    assert t[0] == tag[0] && t[1] == tag[1] && t[2] == sep;
    assert Fold("am"[0]) == 'A' && Fold("pm"[0]) == 'P' && Fold("am"[1]) == 'M' && Fold("pm"[1]) == 'M';
    if Fold(tag[0]) == 'A' {
      assert TaggedAs(t, "am");
    } else {
      assert TaggedAs(t, "pm");
    }
    TagsExclusive(t);
  }

  /** An empty message (a missing or blank Body) is of no known kind. */
  lemma EmptyIsUnknown()
    ensures Detect("") == Unknown
  {
  }

  /** Without a tag, a whole word "sleep" anywhere makes a morning entry. */
  lemma SleepWordMeansAM(t: string, i: nat)
    requires !TaggedAs(t, "pm") && WordAt(t, i, "sleep")
    ensures Detect(t) == AM
  {
  }

  /** "sleep" inside a longer word is not the word: "sleepy" alone is no AM entry. */
  lemma SleepyIsUnknown()
    ensures Detect("sleepy") == Unknown
  {
    var t := "sleepy";
    forall i: nat ensures !WordAt(t, i, "sleep") {
      if i == 0 {
        assert IsWordChar(t[5]);
      }
    }
  }
}
