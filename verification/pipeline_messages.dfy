/** `me.maydeng.llmkit.core.message.AiMessage`: the mutable assistant message. */
module PipelineMessages {
  import opened Wrappers
  import opened JavaText
  import opened PipelineStrings

  /** The observable state of an `AiMessage` at one moment. */
  datatype AiSnap = AiSnap(content: JString, fullContent: JString, finished: bool)

  /** The state after `merge`: only the content moves, and it moves by `append`. */
  function MergeSnap(m: AiSnap, delta: Option<JString>): (r: AiSnap)
    ensures r.fullContent == m.fullContent && r.finished == m.finished
    ensures delta.None? ==> r == m
    ensures delta.Some? ==> OrEmpty(r.content) == OrEmpty(m.content) + OrEmpty(delta.value)
    ensures delta.Some? && (delta.value.None? || delta.value == Some("")) ==> r == m
  {
    match delta
    case None => m
    case Some(d) => m.(content := Append(m.content, d))
  }

  class AiMessage {
    var content: JString
    var fullContent: JString
    var finished: bool

    function Snapshot(): AiSnap
      reads this
    {
      AiSnap(content, fullContent, finished)
    }

    /** `new AiMessage()`: every field at its Java default. */
    constructor ()
      ensures Snapshot() == AiSnap(None, None, false)
    {
      content, fullContent, finished := None, None, false;
    }

    /** `new AiMessage(content)`. */
    constructor WithContent(c: JString)
      ensures Snapshot() == AiSnap(c, None, false)
    {
      content, fullContent, finished := c, None, false;
    }

    method SetContent(c: JString)
      modifies this`content
      ensures content == c
    {
      content := c;
    }

    method SetFullContent(c: JString)
      modifies this`fullContent
      ensures fullContent == c
    {
      fullContent := c;
    }

    method SetFinished(f: bool)
      modifies this`finished
      ensures finished == f
    {
      finished := f;
    }

    /**
     * `merge(delta)`: a null delta changes nothing; otherwise the content
     * becomes `append(content, delta.content)` and nothing else changes.
     */
    method Merge(delta: AiMessage?)
      modifies this`content
      ensures Snapshot() == MergeSnap(old(Snapshot()), if delta == null then None else Some(old(delta.content)))
    {
      if delta == null {
        return;
      }
      SetContent(Append(content, delta.content));
    }
  }
}
