/** Source composition (`build_source`): the path with `strip_from_src` removed once, and
    the directives with the derived sizes written over width and height. */
module Source {
  import opened JsValues
  import opened ImageDirectives
  import opened Sizing

  /** `pat` occurs in `s` starting at index `i`. */
  predicate OccursAt(s: string, pat: string, i: int) {
    0 <= i && i + |pat| <= |s| && s[i..i + |pat|] == pat
  }

  /** The first index at or after `from` where `pat` occurs in `s`, as `indexOf` finds it. */
  function IndexOfFrom(s: string, pat: string, from: nat): (r: Option<nat>)
    ensures r.Some? ==> from <= r.value && OccursAt(s, pat, r.value)
    ensures r.Some? ==> forall j :: from <= j < r.value ==> !OccursAt(s, pat, j)
    ensures r.None? ==> forall j :: from <= j ==> !OccursAt(s, pat, j)
    decreases |s| - from
  {
    if from + |pat| > |s| then None
    else if s[from..from + |pat|] == pat then Some(from)
    else IndexOfFrom(s, pat, from + 1)
  }

  /** `s.replace(pat, "")` with a string pattern: only the first occurrence is removed, and
      an empty pattern matches at index 0 and removes nothing. */
  function StripFirst(s: string, pat: string): (r: string)
    ensures pat == [] ==> r == s
    ensures |r| == |s| || |r| == |s| - |pat|
  {
    match IndexOfFrom(s, pat, 0)
    case None => s
    case Some(i) => s[..i] + s[i + |pat|..]
  }

  /** The first occurrence of the pattern, and only that one, is cut out. */
  lemma StripFirstRemovesFirstOccurrence(s: string, pat: string, i: int)
    requires OccursAt(s, pat, i)
    requires forall j :: 0 <= j < i ==> !OccursAt(s, pat, j)
    ensures StripFirst(s, pat) == s[..i] + s[i + |pat|..]
    ensures |StripFirst(s, pat)| == |s| - |pat|
  {
    var found := IndexOfFrom(s, pat, 0);
    assert found == Some(i);
  }

  /** A path in which the pattern does not occur is kept whole. */
  lemma StripFirstKeepsAbsentPattern(s: string, pat: string)
    requires forall i :: !OccursAt(s, pat, i)
    ensures StripFirst(s, pat) == s
  {
  }

  /** The path part of the URL: the empty string for a null or empty `path`. */
  function FinalPath(path: Option<string>, strip: string): string {
    if path.Some? && path.value != [] then StripFirst(path.value, strip) else []
  }

  /** The URL handed to the builder: the host prefix followed by the stripped path. */
  function SourceUrl(finalHost: string, path: Option<string>, strip: string): string {
    finalHost + FinalPath(path, strip)
  }

  /** The copy of the directives handed to the URL builder. */
  function FinalDirectives(d: Directives, deriveSize: bool, s: SizeFields): (r: Directives)
    ensures r.fit == d.fit && r.noOptimization == d.noOptimization && r.others == d.others
    ensures !deriveSize ==> r == d
    ensures deriveSize ==> r.width in {s.image.width, s.directiveWidth} && r.height in {s.image.height, s.directiveHeight}
    ensures deriveSize && Truthy(s.image.width) ==> r.width == s.image.width
    ensures deriveSize && !Truthy(s.image.width) ==> r.width == s.directiveWidth
    ensures deriveSize && Truthy(s.image.height) ==> r.height == s.image.height
    ensures deriveSize && !Truthy(s.image.height) ==> r.height == s.directiveHeight
  {
    if deriveSize then
      d.(width := Or(s.image.width, s.directiveWidth), height := Or(s.image.height, s.directiveHeight))
    else d
  }

  /** A strip prefix that the path starts with is removed from the front. */
  lemma StripLeadingPrefix(s: string, pat: string)
    requires |pat| <= |s| && s[..|pat|] == pat
    ensures StripFirst(s, pat) == s[|pat|..]
  {
    StripFirstRemovesFirstOccurrence(s, pat, 0);
  }
}
