/**
 * The revert picker (src/components/RevertPromptPicker.tsx): the list of user prompts it offers,
 * built from the loaded messages, and the keyboard state machine that moves the selection,
 * chooses the revert mode and reports the choice.
 */
module RevertPicker {
  import opened Base
  import opened Text
  import opened Messages

  /** The text one array element contributes: a bare string itself, an object its non-empty `text`. */
  function ItemText(seg: Segment): string {
    match seg
    case Bare(s) => s
    case Item(_, text, _, _, _) => if text.Some? && text.value != "" then text.value else ""
  }

  /** The texts of the array's elements, in order (`content.map(...)`). */
  function ItemTexts(items: seq<Segment>): (r: seq<string>)
    ensures |r| == |items| && forall i :: 0 <= i < |items| ==> r[i] == ItemText(items[i])
  {
    if items == [] then [] else [ItemText(items[0])] + ItemTexts(items[1..])
  }

  /**
   * `extractTextFromMessage`: "" for absent, empty or non-text content, a string as it is, and for
   * an array the texts of its elements joined with single spaces and trimmed.
   */
  function ExtractTextFromMessage(m: Message): (r: string)
    ensures Body(m).Text? ==> r == Body(m).s
    ensures !Body(m).Text? && !Body(m).Parts? ==> r == ""
    ensures Body(m).Parts? && r != [] ==> !IsJsSpace(r[0]) && !IsJsSpace(r[|r| - 1])
  {
    var c := Body(m);
    if !Truthy(c) then ""
    else match c
      case Text(s) => s
      case Parts(items) => JsTrim(Join(ItemTexts(items), " "))
      case _ => ""
  }

  /** An array yields text exactly when one of its elements contributes a non-blank text. */
  lemma ArrayTextEmptyIff(m: Message)
    requires Body(m).Parts?
    ensures ExtractTextFromMessage(m) == "" <==>
      forall i :: 0 <= i < |Body(m).items| ==> AllSpace(ItemText(Body(m).items[i]), IsJsSpace)
  {
    var items := Body(m).items;
    var parts := ItemTexts(items);
    assert ExtractTextFromMessage(m) == JsTrim(Join(parts, " "));
    assert AllSpace(" ", IsJsSpace) by {
      assert " "[0] == ' ';
    }
    JoinAllSpace(parts, " ", IsJsSpace);
    TrimEmptyIff(Join(parts, " "), IsJsSpace);
  }

  /** `truncateText`: the text when it fits, else its first `max` characters followed by "...". */
  function TruncateText(text: string, max: nat): (r: string)
    ensures |r| <= max + 3
    ensures |text| <= max ==> r == text
    ensures |text| > max ==> |r| == max + 3 && r[..max] == text[..max] && r[max..] == "..."
  {
    if |text| <= max then text else text[..max] + "..."
  }

  /** Previews are cut at 80 characters. */
  const PreviewLength: nat := 80

  datatype PromptEntry = PromptEntry(index: nat, content: string, preview: string, messageIndex: nat)

  /** A message the picker lists: a `user` message whose extracted text is not empty. */
  predicate PickerQualifies(m: Message) {
    m.kind == "user" && ExtractTextFromMessage(m) != ""
  }

  /**
   * The prompt list: one entry per listed message, numbered 0, 1, 2, … in message order, each
   * holding the message's text, its preview and its position.
   */
  function PromptList(ms: seq<Message>): (ps: seq<PromptEntry>)
    ensures |ps| <= |ms|
    ensures forall i :: 0 <= i < |ps| ==> ps[i].index == i
    ensures forall i :: 0 <= i < |ps| ==>
      ps[i].messageIndex < |ms| && PickerQualifies(ms[ps[i].messageIndex])
      && ps[i].content == ExtractTextFromMessage(ms[ps[i].messageIndex])
      && ps[i].preview == TruncateText(ps[i].content, PreviewLength)
    ensures forall i, j :: 0 <= i < j < |ps| ==> ps[i].messageIndex < ps[j].messageIndex
  {
    if ms == [] then []
    else
      var n := |ms| - 1;
      var before := PromptList(ms[..n]);
      assert forall p :: 0 <= p < n ==> ms[..n][p] == ms[p];
      if PickerQualifies(ms[n]) then
        var text := ExtractTextFromMessage(ms[n]);
        before + [PromptEntry(|before|, text, TruncateText(text, PreviewLength), n)]
      else before
  }

  /** Every message the picker qualifies has its entry in the list. */
  lemma {:induction false} PromptListComplete(ms: seq<Message>, p: nat)
    requires p < |ms| && PickerQualifies(ms[p])
    ensures exists i :: 0 <= i < |PromptList(ms)| && PromptList(ms)[i].messageIndex == p
  {
    var n := |ms| - 1;
    var before := PromptList(ms[..n]);
    var ps := PromptList(ms);
    if p == n {
      assert ps[|before|].messageIndex == p;
    } else {
      assert ms[..n][p] == ms[p];
      PromptListComplete(ms[..n], p);
      var i :| 0 <= i < |before| && before[i].messageIndex == p;
      assert ps[i] == before[i];
    }
  }

  /** Builds the prompt list the way the picker does: one pass with a running prompt number. */
  method BuildPromptList(ms: seq<Message>) returns (ps: seq<PromptEntry>)
    ensures ps == PromptList(ms)
  {
    ps := [];
    var promptIndex := 0;
    var i := 0;
    while i < |ms|
      invariant 0 <= i <= |ms|
      invariant ps == PromptList(ms[..i])
      invariant promptIndex == |ps|
    {
      assert ms[..i + 1][..i] == ms[..i];
      if ms[i].kind == "user" {
        var content := ExtractTextFromMessage(ms[i]);
        if content != "" {
          ps := ps + [PromptEntry(promptIndex, content, TruncateText(content, PreviewLength), i)];
          promptIndex := promptIndex + 1;
        }
      }
      i := i + 1;
    }
    assert ms[..i] == ms;
  }

  /** The three revert modes the picker offers. */
  datatype RewindMode = ConversationOnly | CodeOnly | Both

  datatype Key = Escape | ArrowUp | ArrowDown | Enter | Digit1 | Digit2 | Digit3 | OtherKey

  /** What the picker reports to its owner. */
  datatype PickerEvent = Select(promptIndex: nat, mode: RewindMode) | Close

  function Max(a: int, b: int): int { if a >= b then a else b }
  function Min(a: int, b: int): int { if a <= b then a else b }

  class Picker {
    const prompts: seq<PromptEntry>
    var selectedIndex: int
    var mode: RewindMode
    /** Calls of `onSelect` and `onClose`, in order. */
    var events: seq<PickerEvent>

    /**
     * The selection stays on an entry while there is one; with no entries ArrowDown can move it
     * to -1 and ArrowUp back to 0.
     */
    ghost predicate Valid()
      reads this
    {
      (|prompts| > 0 ==> 0 <= selectedIndex < |prompts|)
      && (|prompts| == 0 ==> -1 <= selectedIndex <= 0)
    }

    /** Opens on the first entry in mode "both"; an empty list asks to be closed at once. */
    constructor (messages: seq<Message>)
      ensures Valid()
      ensures prompts == PromptList(messages)
      ensures selectedIndex == 0 && mode == Both
      ensures events == (if prompts == [] then [Close] else [])
    {
      var ps := BuildPromptList(messages);
      prompts := ps;
      selectedIndex := 0;
      mode := Both;
      events := if ps == [] then [Close] else [];
    }

    /** The capture-phase key handler. */
    method KeyDown(key: Key)
      requires Valid()
      modifies this`selectedIndex, this`mode, this`events
      ensures Valid()
      ensures key == Escape ==> events == old(events) + [Close]
      ensures key == ArrowUp ==> selectedIndex == Max(0, old(selectedIndex) - 1)
      ensures key == ArrowDown ==> selectedIndex == Min(|prompts| - 1, old(selectedIndex) + 1)
      ensures key == Enter && 0 <= old(selectedIndex) < |prompts| ==>
        events == old(events) + [Select(prompts[old(selectedIndex)].index, old(mode)), Close]
      ensures key == Enter && !(0 <= old(selectedIndex) < |prompts|) ==> events == old(events)
      ensures key == Digit1 ==> mode == ConversationOnly
      ensures key == Digit2 ==> mode == CodeOnly
      ensures key == Digit3 ==> mode == Both
      ensures !(key == Digit1 || key == Digit2 || key == Digit3) ==> mode == old(mode)
      ensures !(key == ArrowUp || key == ArrowDown) ==> selectedIndex == old(selectedIndex)
      ensures !(key == Escape || key == Enter) ==> events == old(events)
    {
      match key {
        case Escape =>
          events := events + [Close];
        case ArrowUp =>
          selectedIndex := Max(0, selectedIndex - 1);
        case ArrowDown =>
          selectedIndex := Min(|prompts| - 1, selectedIndex + 1);
        case Enter =>
          if 0 <= selectedIndex < |prompts| {
            events := events + [Select(prompts[selectedIndex].index, mode), Close];
          }
        case Digit1 =>
          mode := ConversationOnly;
        case Digit2 =>
          mode := CodeOnly;
        case Digit3 =>
          mode := Both;
        case OtherKey =>
      }
    }
  }
}
