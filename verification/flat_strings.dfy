/**
 * `io.github.llmkit.util.StringUtil`.  `hasText` and `noText` are the same
 * tests as in the other generation and are taken from `PipelineStrings`;
 * this module adds `defaultIfNoText` and `truncate`.
 */
module FlatStrings {
  import opened Wrappers
  import opened JavaText
  import opened PipelineStrings

  /** `defaultIfNoText(s, d)`: s when it has text, else d. */
  function DefaultIfNoText(s: JString, default: JString): (r: JString)
    ensures HasText(s) ==> r == s
    ensures NoText(s) ==> r == default
    ensures HasText(r) || r == default
  {
    if HasText(s) then s else default
  }

  /**
   * `truncate(s, max)`: null and strings of at most `max` chars are kept;
   * a longer string is cut to its first `max` chars followed by "...".
   */
  function Truncate(s: JString, max: nat): (r: JString)
    ensures r.None? <==> s.None?
    ensures s.Some? && |s.value| <= max ==> r == s
    ensures s.Some? && |s.value| > max ==> |r.value| == max + 3 && EndsWith(r.value, "...")
    ensures s.Some? ==> StartsWith(r.value, s.value[..if |s.value| <= max then |s.value| else max])
  {
    if s.None? || |s.value| <= max then s
    else
      var t := s.value[..max] + "...";
      assert t[..max] == s.value[..max] && t[|t| - 3..] == "...";
      Some(t)
  }
}
