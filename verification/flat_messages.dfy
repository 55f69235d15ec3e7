/**
 * `MessageType` and `Message` of the `io.github.llmkit` generation.  The
 * three subclasses `SystemMessage`, `UserMessage` and `AiMessage` are the
 * constructors of one datatype.
 */
module FlatMessages {
  import opened Wrappers
  import opened JavaText
  import opened FlatErrors
  import opened FlatStrings

  datatype MessageType = System | User | Assistant | Function | Tool

  /** `getValue()`, which `toString()` also returns: the role's wire name. */
  function Value(t: MessageType): string {
    match t
    case System => "system"
    case User => "user"
    case Assistant => "assistant"
    case Function => "function"
    case Tool => "tool"
  }

  /** `values()`, in declaration order. */
  const AllTypes: seq<MessageType> := [System, User, Assistant, Function, Tool]

  /** The first type from index `i` on whose value equals `v` ignoring case. */
  function LookupFrom(v: string, i: nat): (r: Option<MessageType>)
    requires i <= |AllTypes|
    ensures r.Some? ==> EqualsIgnoreCase(Value(r.value), Some(v))
    ensures r.None? <==> forall j :: i <= j < |AllTypes| ==> !EqualsIgnoreCase(Value(AllTypes[j]), Some(v))
    decreases |AllTypes| - i
  {
    if i == |AllTypes| then None
    else if EqualsIgnoreCase(Value(AllTypes[i]), Some(v)) then Some(AllTypes[i])
    else LookupFrom(v, i + 1)
  }

  /** What `fromValue` promises: null and unknown values are rejected, anything else maps to the first matching type. */
  function FromValueSpec(v: JString): Outcome<MessageType, Failure> {
    if v.None? then Threw(IllegalArgument(Some("Message type value cannot be null")))
    else match LookupFrom(v.value, 0)
      case Some(t) => Returned(t)
      case None => Threw(IllegalArgument(Some("Unknown message type: " + v.value)))
  }

  /** `fromValue`: the loop over `values()` with early return. */
  method FromValue(v: JString) returns (r: Outcome<MessageType, Failure>)
    ensures r == FromValueSpec(v)
    ensures r.Returned? ==> EqualsIgnoreCase(Value(r.value), v)
  {
    if v.None? {
      return Threw(IllegalArgument(Some("Message type value cannot be null")));
    }
    var i := 0;
    while i < |AllTypes|
      invariant 0 <= i <= |AllTypes|
      invariant LookupFrom(v.value, i) == LookupFrom(v.value, 0)
    {
      if EqualsIgnoreCase(Value(AllTypes[i]), v) {
        return Returned(AllTypes[i]);
      }
      i := i + 1;
    }
    return Threw(IllegalArgument(Some("Unknown message type: " + v.value)));
  }

  /** Different types have values that differ even ignoring case. */
  lemma ValuesDistinctIgnoringCase(s: MessageType, t: MessageType)
    ensures EqualsIgnoreCase(Value(s), Some(Value(t))) <==> s == t
  {
    var a, b := Value(s), Value(t);
    if s != t && |a| == |b| {
      assert !CharEqualsIgnoreCase(a[0], b[0]);
    }
  }

  /** `fromValue(t.getValue()) == t` for every type. */
  lemma FromValueRoundTrip(t: MessageType)
    ensures FromValueSpec(Some(Value(t))) == Returned(t)
  {
    var v := Value(t);
    assert EqualsIgnoreCase(v, Some(v));
    assert t == AllTypes[IndexOf(t)];
    LookupFinds(v, 0, IndexOf(t));
    var r := LookupFrom(v, 0);
    ValuesDistinctIgnoringCase(r.value, t);
  }

  function IndexOf(t: MessageType): (i: nat)
    ensures i < |AllTypes| && AllTypes[i] == t
  {
    match t
    case System => 0
    case User => 1
    case Assistant => 2
    case Function => 3
    case Tool => 4
  }

  lemma LookupFinds(v: string, i: nat, k: nat)
    requires i <= k < |AllTypes| && EqualsIgnoreCase(Value(AllTypes[k]), Some(v))
    ensures LookupFrom(v, i).Some?
  {
  }

  /** Matching ignores case: "USER" gives `User`. */
  lemma FromValueIgnoresCase()
    ensures FromValueSpec(Some("USER")) == Returned(User)
  {
    assert EqualsIgnoreCase("user", Some("USER"));
    assert !EqualsIgnoreCase("system", Some("USER"));
    assert LookupFrom("USER", 0) == LookupFrom("USER", 1);
  }

  /** A value that no type's value matches, even ignoring case, is rejected with its text in the message. */
  lemma UnknownValueRejected()
    ensures FromValueSpec(Some("bot")) == Threw(IllegalArgument(Some("Unknown message type: bot")))
  {
    forall j | 0 <= j < |AllTypes|
      ensures !EqualsIgnoreCase(Value(AllTypes[j]), Some("bot"))
    {
      var a := Value(AllTypes[j]);
      assert |a| != 3;
    }
    assert LookupFrom("bot", 0).None?;
    assert "Unknown message type: " + "bot" == "Unknown message type: bot";
  }

  /** A message of one of the three subclasses, holding its (possibly null) content. */
  datatype Message = SystemMessage(content: JString) | UserMessage(content: JString) | AiMessage(content: JString)

  /** `getType()` of each subclass. */
  function TypeOf(m: Message): (t: MessageType)
    ensures t in {System, User, Assistant}
  {
    match m
    case SystemMessage(_) => System
    case UserMessage(_) => User
    case AiMessage(_) => Assistant
  }

  /** `getRole()`: the wire value of the message's type. */
  function Role(m: Message): (r: string)
    ensures r == Value(TypeOf(m))
    ensures m.UserMessage? <==> r == "user"
    ensures m.SystemMessage? <==> r == "system"
    ensures m.AiMessage? <==> r == "assistant"
  {
    Value(TypeOf(m))
  }

  /** `equals`: the same content and the same type. */
  predicate MessageEquals(a: Message, b: Message) {
    a.content == b.content && TypeOf(a) == TypeOf(b)
  }

  /** Java equality of messages is value equality: the same text under two roles is two different messages. */
  lemma MessageEqualsIsValueEquality(a: Message, b: Message)
    ensures MessageEquals(a, b) <==> a == b
    ensures a.content == b.content && TypeOf(a) != TypeOf(b) ==> !MessageEquals(a, b)
  {
  }

  /** A Java `int` result: `x` reduced to 32-bit two's complement. */
  function Wrap32(x: int): (r: int)
    ensures -0x8000_0000 <= r < 0x8000_0000
    ensures (r - x) % 0x1_0000_0000 == 0
  {
    var m := x % 0x1_0000_0000;
    if m >= 0x8000_0000 then m - 0x1_0000_0000 else m
  }

  /** `String.hashCode`: `h = 31 * h + c` over the chars, in `int` arithmetic; `Objects.hash` takes null as 0. */
  function StringHash(s: JString): (h: int)
    ensures -0x8000_0000 <= h < 0x8000_0000
    decreases if s.Some? then |s.value| else 0
  {
    if s.None? || s.value == [] then 0
    else Wrap32(31 * StringHash(Some(s.value[..|s.value| - 1])) + s.value[|s.value| - 1] as int)
  }

  /**
   * `hashCode`: `Objects.hash(content, getType())`, that is
   * `31 * (31 + content hash) + type hash`.  An enum constant's hash is its
   * identity hash, which varies from run to run; `typeHash` stands for it.
   */
  function MessageHash(m: Message, typeHash: MessageType -> int): (h: int)
    ensures -0x8000_0000 <= h < 0x8000_0000
  {
    Wrap32(31 * (31 + StringHash(m.content)) + typeHash(TypeOf(m)))
  }

  /** Equal messages have equal hash codes, whatever hash each type constant has. */
  lemma EqualMessagesHashAlike(a: Message, b: Message, typeHash: MessageType -> int)
    requires MessageEquals(a, b)
    ensures MessageHash(a, typeHash) == MessageHash(b, typeHash)
  {
  }

  /** `getClass().getSimpleName()`. */
  function ClassName(m: Message): string {
    match m
    case SystemMessage(_) => "SystemMessage"
    case UserMessage(_) => "UserMessage"
    case AiMessage(_) => "AiMessage"
  }

  /** `toString()`: the class name and the content cut to 50 chars plus "..." when longer. */
  function MessageToString(m: Message): string {
    ClassName(m) + "{content='" + Show(Truncate(m.content, 50)) + "'}"
  }

  /** A content of more than 50 chars shows as its first 50 chars followed by "...". */
  lemma LongContentTruncated(m: Message)
    requires m.content.Some? && |m.content.value| > 50
    ensures MessageToString(m) == ClassName(m) + "{content='" + m.content.value[..50] + "...'}"
  {
    var t := Truncate(m.content, 50).value;
    assert t[..50] == m.content.value[..50] && t[50..] == "...";
    assert t == m.content.value[..50] + "...";
  }
}
