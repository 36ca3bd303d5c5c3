/**
 * The three places that decide which transcript entries are prompts: the back end's truncation scan
 * (src-tauri/src/commands/prompt_tracker.rs), the session screen's index
 * (src/components/ClaudeCodeSession.tsx) and the revert picker's list
 * (src/components/RevertPromptPicker.tsx). Revert passes one number k between them, so it lands on
 * the intended prompt only where the rules agree. These lemmas state where they agree and exhibit
 * entries on which they do not.
 */
module PromptIdentity {
  import opened Base
  import opened Text
  import opened Messages
  import PromptTracker
  import SessionView
  import RevertPicker

  /** `isUserInitiated` in the prompt sender: only such prompts are recorded. */
  predicate IsUserInitiated(prompt: string) {
    !Contains(prompt, "Warmup")
  }

  /** A user entry as the client writes it for a typed prompt. */
  function UserEntry(content: Content): Message {
    Message(0, "user", false, false, false, false, false, true, content, None)
  }

  /** Both text rules concatenate the same strings. */
  lemma {:induction false} SameArrayText(items: seq<Segment>)
    ensures SessionView.TextOfItems(items) == PromptTracker.SegmentsText(items)
  {
    if items != [] {
      SameArrayText(items[..|items| - 1]);
    }
  }

  /** Non-empty array text comes from a `text` segment that carries a string. */
  lemma {:induction false} TextNeedsTextSegment(items: seq<Segment>)
    requires SessionView.TextOfItems(items) != []
    ensures PromptTracker.HasTextSegment(items)
  {
    var n := |items| - 1;
    var last := items[n];
    if PromptTracker.IsTextWithString(last) {
      assert PromptTracker.IsTextWithString(items[n]);
    } else {
      TextNeedsTextSegment(items[..n]);
      var i :| 0 <= i < n && PromptTracker.IsTextWithString(items[..n][i]);
      assert items[..n][i] == items[i];
    }
  }

  /** A non-blank array text has a `text` segment whose own string is non-blank. */
  lemma {:induction false} NonBlankTextHasNonBlankSegment(items: seq<Segment>)
    requires !AllSpace(SessionView.TextOfItems(items), IsJsSpace)
    ensures exists i :: (0 <= i < |items| && IsText(items[i]) && items[i].text.Some?
                         && !AllSpace(items[i].text.value, IsJsSpace))
  {
    var n := |items| - 1;
    var last := items[n];
    var front := SessionView.TextOfItems(items[..n]);
    var tail := if IsText(last) && last.text.Some? then last.text.value else "";
    AllSpaceConcat(front, tail, IsJsSpace);
    if !AllSpace(tail, IsJsSpace) {
      assert IsText(items[n]) && items[n].text.Some? && !AllSpace(items[n].text.value, IsJsSpace);
    } else {
      NonBlankTextHasNonBlankSegment(items[..n]);
      var i :| 0 <= i < n && IsText(items[..n][i]) && items[..n][i].text.Some?
        && !AllSpace(items[..n][i].text.value, IsJsSpace);
      assert items[..n][i] == items[i];
    }
  }

  /** No NEL (U+0085), the one character Rust trims and JavaScript keeps. */
  predicate NoNel(s: string) {
    forall i :: 0 <= i < |s| ==> s[i] != '\U{85}'
  }

  /** NEL is the only character Rust calls whitespace and JavaScript does not. */
  lemma RustSpaceBesidesNel(c: char)
    requires c != '\U{85}' && !IsJsSpace(c)
    ensures !IsRustSpace(c)
  {
  }

  /** Without NEL, a string JavaScript finds non-blank is non-blank for Rust too. */
  lemma JsNonBlankIsRustNonBlank(s: string)
    requires NoNel(s) && JsTrim(s) != []
    ensures RustTrim(s) != []
  {
    TrimEmptyIff(s, IsJsSpace);
    var i :| 0 <= i < |s| && !IsJsSpace(s[i]);
    RustSpaceBesidesNel(s[i]);
    TrimKeepsNonSpace(s, IsRustSpace, i);
  }

  /**
   * An entry the back end counts is counted by the session screen too, unless its text is blank to
   * JavaScript (an empty `text` segment, or only characters such as U+FEFF).
   */
  lemma RustPromptIsSessionPrompt(m: Message)
    requires PromptTracker.Qualifies(PromptTracker.Json(m))
    requires JsTrim(SessionView.SessionText(m)) != []
    ensures SessionView.SessionQualifies(m)
  {
    match Body(m) {
      case Text(s) =>
      case Parts(items) =>
        SameArrayText(items);
        var i :| 0 <= i < |items| && PromptTracker.IsTextWithString(items[i]);
        assert IsText(items[i]);
      case _ =>
    }
  }

  /**
   * An entry the session screen counts is counted by the back end too, unless it is on a side
   * chain, belongs to a sub-agent, is a skill banner, or owes its non-blankness to NEL.
   */
  lemma SessionPromptIsRustPrompt(m: Message)
    requires SessionView.SessionQualifies(m)
    requires !m.isSidechain && !m.hasParentToolUse
    requires !PromptTracker.IsSkillBanner(SessionView.SessionText(m))
    requires NoNel(SessionView.SessionText(m))
    ensures PromptTracker.Qualifies(PromptTracker.Json(m))
  {
    match Body(m) {
      case Text(s) =>
        JsNonBlankIsRustNonBlank(s);
      case Parts(items) =>
        SameArrayText(items);
        TextNeedsTextSegment(items);
      case _ =>
    }
  }

  /** Every entry the session screen counts is listed by the picker. */
  lemma SessionPromptIsPickerPrompt(m: Message)
    requires SessionView.SessionQualifies(m)
    ensures RevertPicker.PickerQualifies(m)
  {
    match Body(m) {
      case Text(s) =>
      case Parts(items) =>
        TrimEmptyIff(SessionView.TextOfItems(items), IsJsSpace);
        NonBlankTextHasNonBlankSegment(items);
        var i :| 0 <= i < |items| && IsText(items[i]) && items[i].text.Some?
          && !AllSpace(items[i].text.value, IsJsSpace);
        assert RevertPicker.ItemText(items[i]) == items[i].text.value;
        RevertPicker.ArrayTextEmptyIff(m);
      case _ =>
    }
  }

  /** A prompt containing "Warmup" is neither recorded nor counted by either transcript rule. */
  lemma WarmupIsSkippedEverywhere(prompt: string)
    requires !IsUserInitiated(prompt)
    ensures !PromptTracker.Qualifies(PromptTracker.Json(UserEntry(Text(prompt))))
    ensures !SessionView.SessionQualifies(UserEntry(Text(prompt)))
  {
  }

  /** A typed prompt that is recorded is counted by all three rules when it has no skill banner and no NEL. */
  lemma RecordedPromptIsCountedEverywhere(prompt: string)
    requires IsUserInitiated(prompt) && JsTrim(prompt) != []
    requires !PromptTracker.IsSkillBanner(prompt) && NoNel(prompt)
    ensures PromptTracker.Qualifies(PromptTracker.Json(UserEntry(Text(prompt))))
    ensures SessionView.SessionQualifies(UserEntry(Text(prompt)))
    ensures RevertPicker.PickerQualifies(UserEntry(Text(prompt)))
  {
    JsNonBlankIsRustNonBlank(prompt);
  }

  /** An array entry with an empty `text` segment: the back end counts it, the session screen does not. */
  lemma EmptyTextSegmentDiverges()
    ensures var m := UserEntry(Parts([Item("text", Some(""), "", "", None)]));
      PromptTracker.Qualifies(PromptTracker.Json(m)) && !SessionView.SessionQualifies(m)
  {
    var items := [Item("text", Some(""), "", "", None)];
    assert PromptTracker.IsTextWithString(items[0]);
    assert PromptTracker.SegmentsText(items) == "";
    assert !Contains("", "Warmup");
    assert !PromptTracker.IsSkillBanner("");
  }

  /** A side-chain entry: the session screen counts it, the back end does not. */
  lemma SidechainDiverges()
    ensures var m := UserEntry(Text("fix it")).(isSidechain := true);
      SessionView.SessionQualifies(m) && !PromptTracker.Qualifies(PromptTracker.Json(m))
  {
    var s := "fix it";
    assert !IsJsSpace(s[0]);
    TrimKeepsNonSpace(s, IsJsSpace, 0);
    assert !Contains(s, "Warmup");
  }

  lemma SkillBannerText(s: string)
    requires s == "Launching skill: pdf"
    ensures JsTrim(s) != [] && !Contains(s, "Warmup") && Contains(s, "Launching skill:")
  {
    assert !IsJsSpace(s[0]);
    TrimKeepsNonSpace(s, IsJsSpace, 0);
    MissingFirstChar(s, "Warmup");
    assert At(s, "Launching skill:", 0);
    ContainsIff(s, "Launching skill:");
  }

  /** A skill banner: the session screen counts it, the back end does not. */
  lemma SkillBannerDiverges()
    ensures var m := UserEntry(Text("Launching skill: pdf"));
      SessionView.SessionQualifies(m) && !PromptTracker.Qualifies(PromptTracker.Json(m))
  {
    SkillBannerText("Launching skill: pdf");
  }

  /** An array holding only a bare string: the picker lists it, neither counting rule does. */
  lemma BareStringDiverges()
    ensures var m := UserEntry(Parts([Bare("see above")]));
      RevertPicker.PickerQualifies(m) && !SessionView.SessionQualifies(m)
      && !PromptTracker.Qualifies(PromptTracker.Json(m))
  {
    var items := [Bare("see above")];
    var m := UserEntry(Parts(items));
    assert RevertPicker.ItemText(items[0]) == "see above";
    assert !AllSpace(RevertPicker.ItemText(items[0]), IsJsSpace) by {
      assert !IsJsSpace("see above"[0]);
    }
    RevertPicker.ArrayTextEmptyIff(m);
    assert !SessionView.HasTextItem(items);
    assert !PromptTracker.HasTextSegment(items);
  }

  /** The warm-up prompt: the picker lists it, neither counting rule does. */
  lemma WarmupDivergesForPicker()
    ensures var m := UserEntry(Text("Warmup"));
      RevertPicker.PickerQualifies(m) && !SessionView.SessionQualifies(m)
      && !PromptTracker.Qualifies(PromptTracker.Json(m))
  {
    assert At("Warmup", "Warmup", 0);
    ContainsIff("Warmup", "Warmup");
  }

  /**
   * An entry on which the two counting rules meet the conditions of the two lemmas above: when the
   * back end counts it, its text is not blank to JavaScript; when the session screen counts it, it
   * is not a side-chain, sub-agent or skill-banner entry and has no NEL.
   */
  predicate RulesAgreeOn(m: Message) {
    (PromptTracker.Qualifies(PromptTracker.Json(m)) ==> JsTrim(SessionView.SessionText(m)) != [])
    && (SessionView.SessionQualifies(m) ==>
          !m.isSidechain && !m.hasParentToolUse
          && !PromptTracker.IsSkillBanner(SessionView.SessionText(m)) && NoNel(SessionView.SessionText(m)))
  }

  /** On such an entry the two rules count alike. */
  lemma AgreeingRulesCountAlike(m: Message)
    requires RulesAgreeOn(m)
    ensures PromptTracker.Qualifies(PromptTracker.Json(m)) <==> SessionView.SessionQualifies(m)
  {
    if PromptTracker.Qualifies(PromptTracker.Json(m)) {
      RustPromptIsSessionPrompt(m);
    }
    if SessionView.SessionQualifies(m) {
      SessionPromptIsRustPrompt(m);
    }
  }

  /** The transcript's lines parse, one by one, to the messages the session screen holds. */
  predicate SameTranscript(lines: seq<string>, parse: string -> PromptTracker.Line, messages: seq<Message>) {
    |lines| == |messages| && forall i :: 0 <= i < |lines| ==> parse(lines[i]) == PromptTracker.Json(messages[i])
  }

  /** Over a transcript on whose every entry the rules agree, both count the same prompts in every prefix. */
  lemma {:induction false} PrefixCountsAgree(lines: seq<string>, parse: string -> PromptTracker.Line,
                                             messages: seq<Message>, n: nat)
    requires SameTranscript(lines, parse, messages) && n <= |lines|
    requires forall i :: 0 <= i < |messages| ==> RulesAgreeOn(messages[i])
    ensures PromptTracker.PromptCount(lines[..n], parse) == SessionView.SessionCount(messages[..n])
  {
    if n > 0 {
      PrefixCountsAgree(lines, parse, messages, n - 1);
      PromptTracker.PromptCountStep(lines, parse, n - 1);
      assert messages[..n][..n - 1] == messages[..n - 1];
      AgreeingRulesCountAlike(messages[n - 1]);
    }
  }

  /**
   * Over such a transcript, the back end cuts at line p for k exactly when the session screen counts
   * the message at p as a prompt and gives it the index k: the number the screen hands to
   * `revert_to_prompt` selects that message's own line.
   */
  lemma CutIsSessionIndex(lines: seq<string>, parse: string -> PromptTracker.Line, messages: seq<Message>,
                          k: nat, p: nat)
    requires SameTranscript(lines, parse, messages) && p < |messages|
    requires forall i :: 0 <= i < |messages| ==> RulesAgreeOn(messages[i])
    ensures PromptTracker.Cut(lines, parse, k) == Some(p) <==>
      SessionView.SessionQualifies(messages[p]) && SessionView.IndexAt(messages, p) == k
  {
    PromptTracker.CutIff(lines, parse, k, p);
    PrefixCountsAgree(lines, parse, messages, p);
    AgreeingRulesCountAlike(messages[p]);
    if SessionView.SessionQualifies(messages[p]) {
      SessionView.IndexOfPrompt(messages, p);
    }
  }

  /**
   * The revert button of a displayed prompt: the index `getPromptIndexForMessage` computes makes the
   * back end cut at the line of the message's first occurrence.
   */
  lemma RevertTargetsDisplayedPrompt(lines: seq<string>, parse: string -> PromptTracker.Line,
                                     messages: seq<Message>, displayable: seq<Message>, di: nat, p: nat)
    requires SameTranscript(lines, parse, messages)
    requires forall i :: 0 <= i < |messages| ==> RulesAgreeOn(messages[i])
    requires di < |displayable| && SessionView.FindRef(messages, displayable[di].ref) == Some(p)
    requires SessionView.SessionQualifies(messages[p])
    ensures SessionView.PromptIndexForMessage(messages, displayable, di) >= 0
    ensures PromptTracker.Cut(lines, parse, SessionView.PromptIndexForMessage(messages, displayable, di)) == Some(p)
  {
    SessionView.IndexOfPrompt(messages, p);
    CutIsSessionIndex(lines, parse, messages, SessionView.IndexAt(messages, p), p);
  }
}
