/**
 * The floating prompt input (src/components/FloatingPromptInput/index.tsx): the state the
 * component keeps besides its hooks' (the prompt, the pasted attachments, the images embedded in
 * the prompt, which pickers are open, the chosen model and thinking mode), sending a prompt, and
 * the key handler that closes a picker or sends.
 */
module FloatingPromptInput {
  import opened Base
  import opened Text
  import opened ImageHandling

  datatype ThinkingMode = Auto | Think | KeepThinking | ThinkMore | ThinkALot | ThinkLonger

  /** An entry of the thinking-mode table. `phrase` is optional, and no entry of the table sets it. */
  datatype ThinkingModeConfig = ThinkingModeConfig(id: ThinkingMode, level: nat, tokens: Option<nat>, phrase: Option<string>)

  /** The table of thinking modes: each names a token budget for extended thinking, none a phrase. */
  const ThinkingModes: seq<ThinkingModeConfig> := [
    ThinkingModeConfig(Auto, 0, None, None),
    ThinkingModeConfig(Think, 1, Some(5000), None),
    ThinkingModeConfig(KeepThinking, 2, Some(10000), None),
    ThinkingModeConfig(ThinkMore, 3, Some(15000), None),
    ThinkingModeConfig(ThinkALot, 4, Some(20000), None),
    ThinkingModeConfig(ThinkLonger, 5, Some(30000), None)
  ]

  /** `modes.find(m => m.id === id)`. */
  function FindMode(modes: seq<ThinkingModeConfig>, id: ThinkingMode): (r: Option<ThinkingModeConfig>)
    ensures r.Some? ==> r.value.id == id && r.value in modes
    ensures r.None? <==> forall k :: 0 <= k < |modes| ==> modes[k].id != id
  {
    if modes == [] then None
    else if modes[0].id == id then Some(modes[0])
    else FindMode(modes[1..], id)
  }

  /** The entry found is the first with the id. */
  lemma {:induction false} FindModeIsFirst(modes: seq<ThinkingModeConfig>, id: ThinkingMode, k: nat)
    requires k < |modes| && modes[k].id == id
    requires forall j :: 0 <= j < k ==> modes[j].id != id
    ensures FindMode(modes, id) == Some(modes[k])
  {
    if k > 0 {
      assert modes[0].id != id;
      FindModeIsFirst(modes[1..], id, k - 1);
    }
  }

  /** `thinkingMode?.phrase || undefined`: the mode's phrase, unless it is missing or empty. */
  function ThinkingInstruction(mode: ThinkingMode): Option<string> {
    match FindMode(ThinkingModes, mode)
    case None => None
    case Some(m) => if m.phrase.Some? && m.phrase.value != "" then m.phrase else None
  }

  /** Every thinking mode has an entry in the table. */
  lemma EveryModeListed(mode: ThinkingMode)
    ensures FindMode(ThinkingModes, mode).Some?
  {
    var k := match mode
      case Auto => 0 case Think => 1 case KeepThinking => 2
      case ThinkMore => 3 case ThinkALot => 4 case ThinkLonger => 5;
    assert ThinkingModes[k].id == mode;
  }

  lemma NoModeHasPhrase()
    ensures forall j :: 0 <= j < |ThinkingModes| ==> ThinkingModes[j].phrase.None?
  {
  }

  /** In a table without phrases, whatever entry is found has none. */
  lemma FoundHasNoPhrase(modes: seq<ThinkingModeConfig>, id: ThinkingMode)
    requires forall j :: 0 <= j < |modes| ==> modes[j].phrase.None?
    ensures FindMode(modes, id).None? || FindMode(modes, id).value.phrase.None?
  {
    var r := FindMode(modes, id);
    if r.Some? {
      var k :| 0 <= k < |modes| && modes[k] == r.value;
    }
  }

  /** Since no entry carries a phrase, a prompt is never sent with a thinking instruction. */
  lemma NoThinkingInstruction(mode: ThinkingMode)
    ensures ThinkingInstruction(mode) == None
  {
    NoModeHasPhrase();
    FoundHasNoPhrase(ThinkingModes, mode);
  }

  function FilePaths(attachments: seq<ImageAttachment>): (r: seq<string>)
    ensures |r| == |attachments| && forall k :: 0 <= k < |r| ==> r[k] == attachments[k].filePath
  {
    seq(|attachments|, k requires 0 <= k < |attachments| => attachments[k].filePath)
  }

  /** The attachments' mentions, space-separated, in attachment order. */
  function AttachmentMentions(attachments: seq<ImageAttachment>): string {
    Join(MentionAll(FilePaths(attachments)), " ")
  }

  /** `text` followed by `mentions`, with a space between unless `text` is empty or ends with one. */
  function WithMentions(text: string, mentions: string): (r: string)
    ensures StartsWith(r, text) && EndsWith(r, mentions)
    ensures |r| == |text| + |mentions| + (if EndsWith(text, " ") || text == "" then 0 else 1)
  {
    var r := text + (if EndsWith(text, " ") || text == "" then "" else " ") + mentions;
    assert r[|r| - |mentions|..] == mentions;
    r
  }

  /**
   * The prompt `handleSend` passes on: the trimmed prompt, then, when there are attachments,
   * their mentions after a separating space.
   */
  function FinalPrompt(prompt: string, attachments: seq<ImageAttachment>): (r: string)
    ensures StartsWith(r, JsTrim(prompt))
    ensures attachments == [] ==> r == JsTrim(prompt)
    ensures attachments != [] ==> EndsWith(r, AttachmentMentions(attachments))
  {
    if attachments == [] then JsTrim(prompt) else WithMentions(JsTrim(prompt), AttachmentMentions(attachments))
  }

  /** A sendable prompt trims to text that does not end in a space, so exactly one space separates it from the mentions. */
  lemma FinalPromptSeparator(prompt: string, attachments: seq<ImageAttachment>)
    requires JsTrim(prompt) != "" && attachments != []
    ensures FinalPrompt(prompt, attachments) == JsTrim(prompt) + " " + AttachmentMentions(attachments)
  {
    var t := JsTrim(prompt);
    assert !IsJsSpace(t[|t| - 1]);
  }

  /** A single attachment is mentioned on its own, quoted exactly when its path holds a space. */
  lemma SingleAttachmentMention(attachment: ImageAttachment)
    ensures AttachmentMentions([attachment]) == Mention(attachment.filePath)
  {
    assert MentionAll(FilePaths([attachment])) == [Mention(attachment.filePath)];
  }

  /** The first half of `handleSend`: the trimmed prompt, extended by the attachments' mentions. */
  method ComposePrompt(prompt: string, attachments: seq<ImageAttachment>) returns (finalPrompt: string)
    ensures finalPrompt == FinalPrompt(prompt, attachments)
  {
    finalPrompt := JsTrim(prompt);
    if |attachments| > 0 {
      var imagePathMentions := AttachmentMentions(attachments);
      finalPrompt := WithMentions(finalPrompt, imagePathMentions);
    }
  }

  /** One call of the component's `onSend` callback. */
  datatype SentPrompt = SentPrompt(prompt: string, model: string, thinkingInstruction: Option<string>)

  /** A prompt is sent only when it holds something besides whitespace and the input is enabled. */
  predicate CanSend(prompt: string, disabled: bool) {
    JsTrim(prompt) != "" && !disabled
  }

  class PromptInput {
    var prompt: string
    var attachments: seq<ImageAttachment>
    var embedded: seq<string>
    var selectedModel: string
    var selectedThinkingMode: ThinkingMode
    var isExpanded: bool
    /** The `@` file picker's visibility and query, as its hook exposes them. */
    var showFilePicker: bool
    var filePickerQuery: string
    /** The slash-command picker's visibility and query. */
    var showSlashPicker: bool
    var slashQuery: string
    const disabled: bool
    /** The calls made to `onSend`, oldest first. */
    var sent: seq<SentPrompt>

    constructor(defaultModel: string, disabled: bool)
      ensures prompt == "" && attachments == [] && embedded == [] && sent == []
      ensures selectedModel == defaultModel && selectedThinkingMode == Auto && !isExpanded
      ensures !showFilePicker && filePickerQuery == "" && !showSlashPicker && slashQuery == ""
      ensures this.disabled == disabled
    {
      prompt := "";
      attachments := [];
      embedded := [];
      selectedModel := defaultModel;
      selectedThinkingMode := Auto;
      isExpanded := false;
      showFilePicker := false;
      filePickerQuery := "";
      showSlashPicker := false;
      slashQuery := "";
      this.disabled := disabled;
      sent := [];
    }

    /**
     * `handleSend`: a sendable prompt is passed on with the attachments' mentions, the chosen model
     * and no thinking instruction, and the prompt, attachments and embedded images are cleared.
     */
    method HandleSend()
      modifies this
      ensures !CanSend(old(prompt), disabled) ==>
                prompt == old(prompt) && attachments == old(attachments) && embedded == old(embedded) && sent == old(sent)
      ensures CanSend(old(prompt), disabled) ==>
                sent == old(sent) + [SentPrompt(FinalPrompt(old(prompt), old(attachments)), selectedModel, None)]
                && prompt == "" && attachments == [] && embedded == []
      ensures selectedModel == old(selectedModel) && selectedThinkingMode == old(selectedThinkingMode)
      ensures isExpanded == old(isExpanded)
      ensures showFilePicker == old(showFilePicker) && filePickerQuery == old(filePickerQuery)
      ensures showSlashPicker == old(showSlashPicker) && slashQuery == old(slashQuery)
    {
      if !CanSend(prompt, disabled) {
        return;
      }
      var finalPrompt := ComposePrompt(prompt, attachments);
      var thinkingInstruction := ThinkingInstruction(selectedThinkingMode);
      NoThinkingInstruction(selectedThinkingMode);
      Send(finalPrompt, thinkingInstruction);
    }

    /** The second half of `handleSend`: `onSend` is called and the input is cleared. */
    method Send(finalPrompt: string, thinkingInstruction: Option<string>)
      modifies this
      ensures sent == old(sent) + [SentPrompt(finalPrompt, selectedModel, thinkingInstruction)]
      ensures prompt == "" && attachments == [] && embedded == []
      ensures selectedModel == old(selectedModel) && selectedThinkingMode == old(selectedThinkingMode)
      ensures isExpanded == old(isExpanded)
      ensures showFilePicker == old(showFilePicker) && filePickerQuery == old(filePickerQuery)
      ensures showSlashPicker == old(showSlashPicker) && slashQuery == old(slashQuery)
    {
      sent := sent + [SentPrompt(finalPrompt, selectedModel, thinkingInstruction)];
      prompt := "";
      attachments := [];
      embedded := [];
    }

    /**
     * `handleKeyDown`: Escape closes the file picker if it is open, else the slash-command picker
     * if that is open; Enter without Shift sends when the input is not expanded and no picker is
     * open. `prevented` tells whether the key's default action was cancelled.
     */
    method HandleKeyDown(key: string, shiftKey: bool) returns (prevented: bool)
      modifies this
      ensures prevented == ((old(showFilePicker) || old(showSlashPicker)) && key == "Escape")
                           || (key == "Enter" && !shiftKey && !isExpanded && !old(showFilePicker) && !old(showSlashPicker))
      ensures old(showFilePicker) && key == "Escape" ==>
                !showFilePicker && filePickerQuery == ""
                && showSlashPicker == old(showSlashPicker) && slashQuery == old(slashQuery)
      ensures !old(showFilePicker) && old(showSlashPicker) && key == "Escape" ==>
                !showSlashPicker && slashQuery == ""
                && showFilePicker == old(showFilePicker) && filePickerQuery == old(filePickerQuery)
      ensures !prevented || key == "Escape" ==>
                prompt == old(prompt) && attachments == old(attachments) && embedded == old(embedded) && sent == old(sent)
      ensures !prevented ==>
                showFilePicker == old(showFilePicker) && filePickerQuery == old(filePickerQuery)
                && showSlashPicker == old(showSlashPicker) && slashQuery == old(slashQuery)
      ensures prevented && key == "Enter" && CanSend(old(prompt), disabled) ==>
                sent == old(sent) + [SentPrompt(FinalPrompt(old(prompt), old(attachments)), selectedModel, None)]
                && prompt == "" && attachments == [] && embedded == []
      ensures prevented && key == "Enter" && !CanSend(old(prompt), disabled) ==>
                prompt == old(prompt) && attachments == old(attachments) && embedded == old(embedded) && sent == old(sent)
      ensures key == "Enter" ==>
                showFilePicker == old(showFilePicker) && filePickerQuery == old(filePickerQuery)
                && showSlashPicker == old(showSlashPicker) && slashQuery == old(slashQuery)
      ensures selectedModel == old(selectedModel) && selectedThinkingMode == old(selectedThinkingMode)
      ensures isExpanded == old(isExpanded)
    {
      if showFilePicker && key == "Escape" {
        showFilePicker := false;
        filePickerQuery := "";
        return true;
      }
      if showSlashPicker && key == "Escape" {
        showSlashPicker := false;
        slashQuery := "";
        return true;
      }
      if key == "Enter" && !shiftKey && !isExpanded && !showFilePicker && !showSlashPicker {
        HandleSend();
        return true;
      }
      return false;
    }
  }
}
