/**
 * The session screen's side of prompt revert (src/components/ClaudeCodeSession.tsx): the rule that
 * turns a displayed message into a prompt index, and the revert handler that checks that index
 * against the back end's prompt list before asking for the revert.
 */
module SessionView {
  import opened Base
  import opened Text
  import opened Messages

  /** The text of the `text` segments, each contributing its string or "" (`item.text || ''`). */
  function TextOfItems(items: seq<Segment>): string {
    if items == [] then ""
    else
      var last := items[|items| - 1];
      TextOfItems(items[..|items| - 1])
      + (if IsText(last) && last.text.Some? then last.text.value else "")
  }

  predicate HasTextItem(items: seq<Segment>) {
    exists i :: 0 <= i < |items| && IsText(items[i])
  }

  predicate HasToolResultItem(items: seq<Segment>) {
    exists i :: 0 <= i < |items| && IsToolResult(items[i])
  }

  /** The text the session screen reads from a message: string content, or its `text` segments. */
  function SessionText(m: Message): string {
    match Body(m)
    case Text(s) => s
    case Parts(items) => TextOfItems(items)
    case _ => ""
  }

  /**
   * A message the session screen counts as a prompt: a `user` message whose text is not blank
   * (string content, or at least one `text` segment), which is not a bare tool result, and which
   * does not contain "Warmup". Other content shapes never count.
   */
  predicate SessionQualifies(m: Message) {
    m.kind == "user"
    && match Body(m)
       case Text(s) =>
         JsTrim(s) != [] && !Contains(s, "Warmup")
       case Parts(items) =>
         var text := TextOfItems(items);
         var hasText := HasTextItem(items) && JsTrim(text) != [];
         !(!hasText && HasToolResultItem(items)) && hasText && !Contains(text, "Warmup")
       case _ => false
  }

  /** Number of messages the session screen counts as prompts. */
  function SessionCount(ms: seq<Message>): nat {
    if ms == [] then 0
    else SessionCount(ms[..|ms| - 1]) + (if SessionQualifies(ms[|ms| - 1]) then 1 else 0)
  }

  /** `findIndex(m => m === target)`: the first message that is the same object. */
  function FindRef(ms: seq<Message>, r: nat): (p: Option<nat>)
    ensures p.Some? ==> p.value < |ms| && ms[p.value].ref == r
    ensures p.Some? ==> forall j :: 0 <= j < p.value ==> ms[j].ref != r
    ensures p.None? <==> !HasRef(ms, r)
  {
    if ms == [] then None
    else if ms[0].ref == r then Some(0)
    else match FindRef(ms[1..], r)
      case None =>
        assert forall j :: 1 <= j < |ms| ==> ms[j] == ms[1..][j - 1];
        None
      case Some(q) =>
        assert ms[1..][q] == ms[q + 1];
        Some(q + 1)
  }

  /** The prompt index the screen gives the message at position `p`: prompts up to and including it, less one. */
  function IndexAt(ms: seq<Message>, p: nat): int
    requires p < |ms|
  {
    SessionCount(ms[..p + 1]) - 1
  }

  /**
   * `getPromptIndexForMessage`: -1 when the index is outside the displayed list or the displayed
   * message is not among the messages; otherwise the index of its first occurrence.
   */
  function PromptIndexForMessage(messages: seq<Message>, displayable: seq<Message>, di: int): (r: int)
    ensures r >= -1
    ensures !(0 <= di < |displayable|) ==> r == -1
    ensures 0 <= di < |displayable| && !HasRef(messages, displayable[di].ref) ==> r == -1
    ensures 0 <= di < |displayable| && HasRef(messages, displayable[di].ref) ==>
      exists p :: 0 <= p < |messages| && messages[p].ref == displayable[di].ref && r == IndexAt(messages, p)
        && forall j :: 0 <= j < p ==> messages[j].ref != displayable[di].ref
  {
    if !(0 <= di < |displayable|) then -1
    else match FindRef(messages, displayable[di].ref)
      case None => -1
      case Some(p) => IndexAt(messages, p)
  }

  lemma {:induction false} SessionCountMonotone(ms: seq<Message>, i: nat, j: nat)
    requires i <= j <= |ms|
    ensures SessionCount(ms[..i]) <= SessionCount(ms[..j])
    decreases j - i
  {
    if i < j {
      SessionCountMonotone(ms, i, j - 1);
      assert ms[..j][..j - 1] == ms[..j - 1];
    }
  }

  /** The index never decreases along the message list. */
  lemma IndexMonotone(ms: seq<Message>, p: nat, q: nat)
    requires p <= q < |ms|
    ensures IndexAt(ms, p) <= IndexAt(ms, q)
  {
    SessionCountMonotone(ms, p + 1, q + 1);
  }

  /** A counted prompt gets exactly the number of counted prompts before it. */
  lemma IndexOfPrompt(ms: seq<Message>, p: nat)
    requires p < |ms| && SessionQualifies(ms[p])
    ensures IndexAt(ms, p) == SessionCount(ms[..p])
  {
    assert ms[..p + 1][..p] == ms[..p];
  }

  /** Two counted prompts at different positions get different indices, in the same order. */
  lemma PromptIndicesIncrease(ms: seq<Message>, p: nat, q: nat)
    requires p < q < |ms| && SessionQualifies(ms[p]) && SessionQualifies(ms[q])
    ensures IndexAt(ms, p) < IndexAt(ms, q)
  {
    IndexOfPrompt(ms, p);
    IndexOfPrompt(ms, q);
    SessionCountMonotone(ms, p + 1, q);
    assert ms[..p + 1][..p] == ms[..p];
  }

  /** When no two messages are the same object, a displayed message gets the index of its own position. */
  lemma IndexOfDisplayed(messages: seq<Message>, displayable: seq<Message>, di: nat, p: nat)
    requires DistinctRefs(messages)
    requires di < |displayable| && p < |messages| && messages[p].ref == displayable[di].ref
    ensures PromptIndexForMessage(messages, displayable, di) == IndexAt(messages, p)
  {
    var f := FindRef(messages, displayable[di].ref);
    assert f.Some?;
    assert f.value == p;
  }

  /** The calls the revert handler makes to the back end. */
  datatype ApiCall = GetPromptList | RevertToPrompt(index: int) | LoadSessionHistory

  /** What `loadSessionHistory` resolves to: a list, an object holding `messages`, or anything else. */
  datatype History = MessageList(ms: seq<Message>) | Wrapped(messages: seq<Message>) | Neither

  function MismatchMessage(k: int, n: nat): string {
    "索引不匹配：尝试撤回到 #" + IntToString(k) + "，但只有 " + NatToString(n)
    + " 条提示词记录（#0-#" + IntToString(n - 1) + "）"
  }

  function RevertFailedMessage(e: string): string {
    "撤回失败：" + e
  }

  /**
   * The session screen's state the revert handler touches. `hasInput` says whether the floating
   * prompt input is mounted; `calls` records the back-end calls in order.
   */
  class SessionScreen {
    const hasInput: bool
    var messages: seq<Message>
    var error: Option<string>
    var inputPrompt: string
    var calls: seq<ApiCall>

    constructor (hasInput: bool, messages: seq<Message>)
      ensures this.hasInput == hasInput && this.messages == messages
      ensures error == None && inputPrompt == "" && calls == []
    {
      this.hasInput := hasInput;
      this.messages := messages;
      error := None;
      inputPrompt := "";
      calls := [];
    }

    /**
     * `handleRevert(k)`. `hasSession` says whether a session is open; `listed` is the length of
     * the back end's prompt list or the failure fetching it; `reverted` is the prompt text the
     * revert returns or its failure; `history` is the reloaded transcript or its failure.
     * A list length of at most `k` stops the handler with an error before the revert; a failure
     * fetching the list does not.
     */
    method HandleRevert(hasSession: bool, k: int, listed: Result<nat, string>,
                        reverted: Result<string, string>, history: Result<History, string>)
      modifies this`messages, this`error, this`inputPrompt, this`calls
      ensures !hasSession ==>
        calls == old(calls) && messages == old(messages) && error == old(error)
        && inputPrompt == old(inputPrompt)
      ensures hasSession && listed.Ok? && k >= listed.value ==>
        calls == old(calls) + [GetPromptList] && error == Some(MismatchMessage(k, listed.value))
        && messages == old(messages) && inputPrompt == old(inputPrompt)
      ensures hasSession && !(listed.Ok? && k >= listed.value) && reverted.Err? ==>
        calls == old(calls) + [GetPromptList, RevertToPrompt(k)]
        && error == Some(RevertFailedMessage(reverted.error))
        && messages == old(messages) && inputPrompt == old(inputPrompt)
      ensures hasSession && !(listed.Ok? && k >= listed.value) && reverted.Ok? ==>
        calls == old(calls) + [GetPromptList, RevertToPrompt(k), LoadSessionHistory]
      ensures hasSession && !(listed.Ok? && k >= listed.value) && reverted.Ok? && history.Err? ==>
        error == Some(RevertFailedMessage(history.error))
        && messages == old(messages) && inputPrompt == old(inputPrompt)
      ensures hasSession && !(listed.Ok? && k >= listed.value) && reverted.Ok? && history.Ok? ==>
        error == old(error)
        && messages == (match history.value
                        case MessageList(ms) => ms
                        case Wrapped(ms) => ms
                        case Neither => old(messages))
        && inputPrompt == (if hasInput && reverted.value != "" then reverted.value else old(inputPrompt))
    {
      if !hasSession {
        return;
      }
      calls := calls + [GetPromptList];
      if listed.Ok? && k >= listed.value {
        error := Some(MismatchMessage(k, listed.value));
        return;
      }
      calls := calls + [RevertToPrompt(k)];
      if reverted.Err? {
        error := Some(RevertFailedMessage(reverted.error));
        return;
      }
      calls := calls + [LoadSessionHistory];
      if history.Err? {
        error := Some(RevertFailedMessage(history.error));
        return;
      }
      match history.value {
        case MessageList(ms) => messages := ms;
        case Wrapped(ms) => messages := ms;
        case Neither =>
      }
      if hasInput && reverted.value != "" {
        inputPrompt := reverted.value;
      }
    }
  }
}
