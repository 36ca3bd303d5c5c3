/**
 * The transcript entry shared by the back end and the front end: one JSON object per line of a
 * session's `.jsonl` file, which the front end loads unchanged as a stream message
 * (`ClaudeStreamMessage`). Only the fields some modelled rule reads are kept. JSON parsing itself
 * is outside the model.
 */
module Messages {
  import opened Base
  import opened Text

  /** Token counts of `message.usage`; a missing count reads as 0. */
  datatype Usage = Usage(inputTokens: nat, outputTokens: nat)

  /**
   * One element of an array-valued `message.content`: a bare string, or an object whose fields
   * are kept as far as rules read them. `kind` is the `type` field ("" when missing or not a
   * string); `text` is the `text` field when it is a string; `toolUseId` and `id` are "" when
   * missing; `name` is the tool name of a `tool_use` item.
   */
  datatype Segment =
    | Bare(s: string)
    | Item(kind: string, text: Option<string>, toolUseId: string, id: string, name: Option<string>)

  /**
   * `message.content`: absent, a string, an array, or some other JSON value (an object, a number,
   * a boolean or null), whose JavaScript truthiness is `truthy` (false for 0, false and null).
   */
  datatype Content = NoContent | Text(s: string) | Parts(items: seq<Segment>) | OtherValue(truthy: bool)

  /**
   * A transcript entry. `ref` stands for object identity: JavaScript's `===` on two entries
   * compares `ref`. `kind` is the `type` field. `hasBody` says whether `message` is present;
   * `content` is then `message.content`.
   */
  datatype Message = Message(
    ref: nat,
    kind: string,
    isMeta: bool,
    hasLeafUuid: bool,
    hasSummary: bool,
    isSidechain: bool,
    hasParentToolUse: bool,
    hasBody: bool,
    content: Content,
    usage: Option<Usage>)

  /** `message.message?.content`, which is absent when `message` is. */
  function Body(m: Message): (c: Content)
    ensures !m.hasBody ==> c == NoContent
  {
    if m.hasBody then m.content else NoContent
  }

  /** JavaScript truthiness of a content value: absent, "", 0, false and null are falsy, an empty array is not. */
  predicate Truthy(c: Content) {
    !(c.NoContent? || c == Text("") || (c.OtherValue? && !c.truthy))
  }

  predicate IsText(seg: Segment) {
    seg.Item? && seg.kind == "text"
  }

  predicate IsToolResult(seg: Segment) {
    seg.Item? && seg.kind == "tool_result"
  }

  predicate IsToolUse(seg: Segment) {
    seg.Item? && seg.kind == "tool_use"
  }

  /** The segments of an array content, and none for any other shape. */
  function Segments(c: Content): seq<Segment> {
    if c.Parts? then c.items else []
  }

  /** The entries whose `ref` is `r`. */
  predicate HasRef(ms: seq<Message>, r: nat) {
    exists i :: 0 <= i < |ms| && ms[i].ref == r
  }

  /** No two entries are the same object. */
  predicate DistinctRefs(ms: seq<Message>) {
    forall i, j :: 0 <= i < j < |ms| ==> ms[i].ref != ms[j].ref
  }
}
