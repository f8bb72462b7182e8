/** Keyword matching under the `i` flag, and the left-to-right order in which
    `String.prototype.match` tries start positions. */
module Scan {
  import opened Wrappers
  import opened Chars

  /** The literal kw occurs at position i of t under the `i` flag. */
  predicate KeywordAt(t: string, i: nat, kw: string) {
    i + |kw| <= |t| && forall j :: 0 <= j < |kw| ==> Fold(t[i + j]) == Fold(kw[j])
  }

  /** The first position from i on (up to and including |t|) where the attempt `at` succeeds. */
  function FirstFrom<T>(at: (string, nat) -> Option<T>, t: string, i: nat): (r: Option<nat>)
    requires i <= |t|
    ensures r.Some? ==> i <= r.value <= |t| && at(t, r.value).Some?
    ensures forall j :: i <= j <= |t| && (r.None? || j < r.value) ==> at(t, j).None?
    decreases |t| - i
  {
    if at(t, i).Some? then Some(i)
    else if i == |t| then None
    else FirstFrom(at, t, i + 1)
  }

  /** `t.match(re)` without the `g` flag, where `at(t, i)` is the result of
      attempting `re` at position i: the attempt at the leftmost position
      where one succeeds. */
  function Search<T>(at: (string, nat) -> Option<T>, t: string): (r: Option<T>)
    ensures r.Some? <==> exists i :: 0 <= i <= |t| && at(t, i).Some?
    ensures r.Some? ==> exists i :: 0 <= i <= |t| && at(t, i) == r
                                    && forall j :: 0 <= j < i ==> at(t, j).None?
  {
    match FirstFrom(at, t, 0)
    case Some(i) => at(t, i)
    case None => None
  }
}
