/** `me.maydeng.llmkit.core.parser.impl.DefaultAiMessageParser`. */
module PipelineParser {
  import opened Wrappers
  import opened JavaText
  import opened Json
  import opened PipelineFaults
  import opened PipelineMessages

  /** The two configurable JSONPaths; a null path is never evaluated. */
  datatype Parser = Parser(contentPath: Option<seq<Selector>>, deltaContentPath: Option<seq<Selector>>)

  const ContentPath: seq<Selector> := [Field("choices"), Item(0), Field("message"), Field("content")]
  const DeltaContentPath: seq<Selector> := [Field("choices"), Item(0), Field("delta"), Field("content")]

  /** `getOpenAIMessageParser()`: `$.choices[0].message.content` and `$.choices[0].delta.content`. */
  function OpenAIParser(): (p: Parser)
    ensures p.contentPath.Some? && p.deltaContentPath.Some?
  {
    Parser(Some(ContentPath), Some(DeltaContentPath))
  }

  /** The path `parse` evaluates: the delta path when streaming, the content path otherwise. */
  function SelectedPath(p: Parser, streaming: bool): Option<seq<Selector>> {
    if streaming then p.deltaContentPath else p.contentPath
  }

  /**
   * `parse(root, context)`: a fresh message whose content is the selected
   * path's value cast to `String`; null when the path is unset or finds
   * nothing; a `ClassCast` failure when it finds something else than a string.
   */
  function Parse(p: Parser, streaming: bool, root: map<string, Json>): (r: Outcome<AiSnap, Fault>)
    ensures r.Threw? ==> r.error == ClassCast
    ensures r.Returned? ==> r.value.fullContent.None? && !r.value.finished
    ensures SelectedPath(p, streaming).None? ==> r == Returned(AiSnap(None, None, false))
    ensures SelectedPath(p, streaming).Some? ==>
      var v := Eval(JObject(root), SelectedPath(p, streaming).value);
      (r.Threw? <==> v.Some? && !v.value.JNull? && !v.value.JString?) &&
      (r.Returned? ==> r.value.content == (if v.Some? && v.value.JString? then Some(v.value.s) else None))
  {
    match SelectedPath(p, streaming)
    case None => Returned(AiSnap(None, None, false))
    case Some(path) =>
      match CastToString(Eval(JObject(root), path))
      case Threw(_) => Threw(ClassCast)
      case Returned(c) => Returned(AiSnap(c, None, false))
  }

  /** Only the path that matches the mode is consulted: the other one may be anything. */
  lemma ModeSelectsPath(p: Parser, other: Option<seq<Selector>>, root: map<string, Json>)
    ensures Parse(p, true, root) == Parse(p.(contentPath := other), true, root)
    ensures Parse(p, false, root) == Parse(p.(deltaContentPath := other), false, root)
  {
  }

  /** `{"choices":[{"delta":{"content": c}}]}`, one streamed chunk. */
  function DeltaChunk(c: string): map<string, Json> {
    map["choices" := JArray([JObject(map["delta" := JObject(map["content" := JString(c)])])])]
  }

  /** `{"choices":[{"message":{"content": c}}]}`, one complete answer. */
  function CompletionBody(c: string): map<string, Json> {
    map["choices" := JArray([JObject(map["message" := JObject(map["content" := JString(c)])])])]
  }

  /** Following a path through one selected child. */
  lemma EvalStep(j: Json, path: seq<Selector>, child: Json)
    requires path != [] && Select(j, path[0]) == Some(child)
    ensures Eval(j, path) == Eval(child, path[1..])
  {
  }

  /** Where `$.choices[0].<slot>.content` leads in a one-choice body. */
  lemma EvalOneChoice(slot: string, other: string, c: string)
    requires slot != other
    ensures var root := JObject(map["choices" := JArray([JObject(map[slot := JObject(map["content" := JString(c)])])])]);
      Eval(root, [Field("choices"), Item(0), Field(slot), Field("content")]) == Some(JString(c)) &&
      Eval(root, [Field("choices"), Item(0), Field(other), Field("content")]) == None
  {
    var leaf := JObject(map["content" := JString(c)]);
    var choice := JObject(map[slot := leaf]);
    var choices := JArray([choice]);
    var root := JObject(map["choices" := choices]);
    var p: seq<Selector> := [Field("choices"), Item(0), Field(slot), Field("content")];
    EvalStep(root, p, choices);
    EvalStep(choices, p[1..], choice);
    EvalStep(choice, p[2..], leaf);
    assert p[2..][1..] == p[3..];
    EvalStep(leaf, p[3..], JString(c));
    assert p[3..][1..] == [];
    var q: seq<Selector> := [Field("choices"), Item(0), Field(other), Field("content")];
    EvalStep(root, q, choices);
    EvalStep(choices, q[1..], choice);
    assert q[1..][1..] == q[2..];
  }

  /** The OpenAI parser reads the delta in streaming mode and the message otherwise. */
  lemma OpenAIParserPaths(c: string)
    ensures Parse(OpenAIParser(), true, DeltaChunk(c)) == Returned(AiSnap(Some(c), None, false))
    ensures Parse(OpenAIParser(), false, DeltaChunk(c)) == Returned(AiSnap(None, None, false))
    ensures Parse(OpenAIParser(), false, CompletionBody(c)) == Returned(AiSnap(Some(c), None, false))
    ensures Parse(OpenAIParser(), true, CompletionBody(c)) == Returned(AiSnap(None, None, false))
  {
    EvalOneChoice("delta", "message", c);
    EvalOneChoice("message", "delta", c);
  }

  /**
   * The OpenAI parser on any body, whatever other members it has (`id`,
   * `model`, `finish_reason`, further choices): the content is the string at
   * `choices[0].<slot>.content`, where the slot is `delta` when streaming and
   * `message` otherwise; a missing or null member anywhere on that path gives null.
   */
  lemma OpenAIParserReadsFirstChoice(streaming: bool, root: map<string, Json>)
    ensures var slot := if streaming then "delta" else "message";
      var content :=
        if "choices" in root && root["choices"].JArray? && |root["choices"].items| > 0
           && root["choices"].items[0].JObject? && slot in root["choices"].items[0].fields
           && root["choices"].items[0].fields[slot].JObject? && "content" in root["choices"].items[0].fields[slot].fields
        then Some(root["choices"].items[0].fields[slot].fields["content"])
        else None;
      (content.Some? && content.value.JString? ==> Parse(OpenAIParser(), streaming, root) == Returned(AiSnap(Some(content.value.s), None, false))) &&
      (content.None? || content == Some(JNull) ==> Parse(OpenAIParser(), streaming, root) == Returned(AiSnap(None, None, false))) &&
      (content.Some? && !content.value.JNull? && !content.value.JString? ==> Parse(OpenAIParser(), streaming, root) == Threw(ClassCast))
  {
    var slot := if streaming then "delta" else "message";
    var path: seq<Selector> := [Field("choices"), Item(0), Field(slot), Field("content")];
    assert SelectedPath(OpenAIParser(), streaming) == Some(path);
    var j := JObject(root);
    if "choices" in root {
      var choices := root["choices"];
      EvalStep(j, path, choices);
      if choices.JArray? && |choices.items| > 0 {
        var choice := choices.items[0];
        EvalStep(choices, path[1..], choice);
        assert path[1..][1..] == path[2..];
        if choice.JObject? && slot in choice.fields {
          var leaf := choice.fields[slot];
          EvalStep(choice, path[2..], leaf);
          assert path[2..][1..] == path[3..];
          if leaf.JObject? && "content" in leaf.fields {
            EvalStep(leaf, path[3..], leaf.fields["content"]);
            assert path[3..][1..] == [];
          }
        }
      }
    }
  }

  /** A body without `choices` gives a message with null content. */
  lemma MissingChoicesGivesNull(streaming: bool, root: map<string, Json>)
    requires "choices" !in root
    ensures Parse(OpenAIParser(), streaming, root) == Returned(AiSnap(None, None, false))
  {
  }

  /** `parse` as the Java method runs it: a new `AiMessage` on every call. */
  method ParseMessage(p: Parser, streaming: bool, root: map<string, Json>) returns (r: Outcome<AiMessage, Fault>)
    ensures r.Returned? ==> fresh(r.value) && Parse(p, streaming, root) == Returned(r.value.Snapshot())
    ensures r.Threw? ==> Parse(p, streaming, root) == Threw(r.error)
  {
    var message := new AiMessage();
    var path := SelectedPath(p, streaming);
    if path.Some? {
      var cast := CastToString(Eval(JObject(root), path.value));
      if cast.Threw? {
        return Threw(ClassCast);
      }
      message.SetContent(cast.value);
    }
    return Returned(message);
  }
}
