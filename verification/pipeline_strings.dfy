/** `me.maydeng.llmkit.core.util.StringUtil`: text tests and null-tolerant concatenation. */
module PipelineStrings {
  import opened Wrappers
  import opened JavaText

  /** `hasText`: non-null and something other than U+0000..U+0020 survives `trim`. */
  function HasText(s: JString): (r: bool)
    ensures r <==> s.Some? && exists i :: 0 <= i < |s.value| && !IsTrimmed(s.value[i])
  {
    match s
    case None => false
    case Some(t) => TrimEmptyIff(t); Trim(t) != []
  }

  /** `noText`: null, or nothing but chars at most U+0020. */
  function NoText(s: JString): (r: bool)
    ensures r <==> s.None? || forall i :: 0 <= i < |s.value| ==> IsTrimmed(s.value[i])
  {
    !HasText(s)
  }

  /**
   * `append(base, delta)`: the base when the delta is null or empty, else the
   * delta when the base is null or empty, else the concatenation.
   */
  function Append(base: JString, delta: JString): (r: JString)
    ensures OrEmpty(r) == OrEmpty(base) + OrEmpty(delta)
    ensures r.None? <==> base.None? && (delta.None? || delta.value == [])
    ensures delta.None? || delta == Some("") ==> r == base
    ensures (base.None? || base == Some("")) && delta.Some? && delta.value != [] ==> r == delta
  {
    if delta.None? || delta.value == [] then base
    else if base.None? || base.value == [] then delta
    else Some(base.value + delta.value)
  }
}
