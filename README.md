# claude-workbench core, modelled in Dafny

This project models the core of claude-workbench, a desktop front end for the Claude command-line
assistant. The back end is written in Rust and Tauri. The front end is written in TypeScript and React.

The model covers the following:

- **The prompt-revert engine** (`prompt_tracker.rs`, with `simple_git.rs` as an abstract repository).
  - Each sent prompt is recorded with the commit that preceded it.
  - The auto-commit made after a prompt completes is stored in that record.
  - Reverting to prompt k stashes local changes, resets the code, and cuts the session transcript just before the k-th real user prompt.
  - It also truncates the record list to the first k records.
- **The three prompt-counting rules** and the lemmas that relate them: the transcript cut (Rust), the session view's prompt index, and the revert picker's list.
- **The message display rules**: `messageFilter.ts` and the displayable-messages hook.
- **Usage statistics**: the integer side of `usage.rs` and the price tiers and durations of `pricing.ts`.
- **The prompt-enhancement service**: the XOR and base64 obfuscation of keys, and the provider list.
- **Tool content extraction** (`toolRegistryInit.tsx`).
- **Front-matter descriptions** of agents and skills (`extensions.rs`).
- **The prompt editor**: slash-command splicing, image mentions, and composing a message to send.
- **The smaller state machines** of the interface:
  - the navigation history;
  - the checkpoint tree;
  - the tool-call group;
  - the session lists, with their pagination, sorting, search, selection and favourites.

Code that works by changing state is modelled as a Dafny `class` with `modifies` clauses. Pure
logic is modelled as functions and lemmas. Loops in the source are methods whose loop invariants
tie them to a specification function. Each module corresponds to one source file. The exceptions
are `base`, `text`, `seqs`, `messages`, `sorting`, `pagination` and `sessions`, which hold
definitions that several source files share.

## Model

| member | source | states |
|---|---|---|
| PromptTracker.LoadPrompts | src-tauri/src/commands/prompt_tracker.rs:38-52 | a missing prompts file loads as the empty list; an unreadable or unparsable file is an error; otherwise the stored records |
| PromptTracker.ExtractContent | src-tauri/src/commands/prompt_tracker.rs:141-167 | the scan's content walk computes exactly `Extract`: string content is its own text, with text iff non-blank; array content concatenates its `text` strings, with text as soon as one `text` segment carries a string (even ""), and notes any `tool_result` |
| PromptTracker.CutExists | src-tauri/src/commands/prompt_tracker.rs:101-229 | the k-th real prompt is found iff the transcript holds more than k real prompts |
| PromptTracker.CutIff | src-tauri/src/commands/prompt_tracker.rs:103-202 | the cut line is exactly the line that is a real prompt (parsed `user`, not sidechain, no parent tool use, has text, not tool-result-only, no Warmup or skill banner) preceded by exactly k real prompts |
| PromptTracker.PromptCountMonotone | src-tauri/src/commands/prompt_tracker.rs:196-203 | the prompt count of a longer prefix is never smaller |
| PromptTracker.WithoutAgentFiles | src-tauri/src/commands/prompt_tracker.rs:263-279 | exactly the files named `agent-*.jsonl` that can be removed are gone; a file whose removal fails stays, and every other file keeps its content |
| PromptTracker.RewrittenTranscriptReadsBack | src-tauri/src/commands/prompt_tracker.rs:235-244 | the kept lines joined by "\n" with one trailing "\n" read back, line by line, as the kept lines (together with line 94) |
| PromptTracker.PromptsFileIsNotAgentFile | src-tauri/src/commands/prompt_tracker.rs:28-34 | a session's prompts file `<id>.prompts.json` is never taken for an agent file |
| PromptTracker.ProjectDir.SavePrompts | src-tauri/src/commands/prompt_tracker.rs:55-69 | success iff the prompts file can be written; then the file holds exactly the records, which load back unchanged; on failure nothing changes |
| PromptTracker.ProjectDir.RemoveAgentFiles | src-tauri/src/commands/prompt_tracker.rs:259-283 | a removal failure is ignored and the loop goes on; the directory afterwards is `WithoutAgentFiles` of the directory before |
| PromptTracker.ProjectDir.TruncateSession | src-tauri/src/commands/prompt_tracker.rs:73-286 | succeeds exactly when the transcript is missing or is readable, has k+1 real prompts and can be written; a missing transcript is a no-op; an unreadable one or fewer than k+1 prompts is an error that changes no file; otherwise the transcript becomes the lines before the cut (empty when the cut is line 0), and agent files are removed only when k = 0 |
| PromptTracker.FindCut | src-tauri/src/commands/prompt_tracker.rs:97-229 | the scan finds a cut exactly when the transcript has k+1 real prompts, the line it returns is that cut, and when none is found the count it returns is the number of real prompts |
| PromptTracker.RecordPromptSent | src-tauri/src/commands/prompt_tracker.rs:290-332 | succeeds exactly when the repository is ready or can be made so, the list loads and the list file can be written; a ready HEAD is not moved; on success one record is appended with index = old length, the current HEAD as commit-before and no commit-after, and its index is returned; on failure the prompt files are unchanged |
| PromptTracker.MarkPromptCompleted | src-tauri/src/commands/prompt_tracker.rs:336-382 | succeeds exactly when HEAD resolves after the auto-commit, the list loads, k is in range and the list can be written; HEAD moves to the new commit only when the auto-commit made one; on success only the commit-after of record k changes, to the new HEAD; on failure the prompt files are unchanged |
| PromptTracker.RevertToPrompt | src-tauri/src/commands/prompt_tracker.rs:386-423 | succeeds exactly when the list loads, k is in range, the reset to record k's commit-before can run, the transcript can be truncated and the prompts file written; an unreadable list or k out of range fails before any git command; otherwise `status`, the stash, then `reset --hard` run in that order; a failed reset leaves HEAD as it was; the transcript is truncated (agent files removed for k = 0) exactly when the revert gets that far, and stays so when the save that follows fails, since the writes are not atomic; the prompt files change only on success, to the first k records; on success HEAD is the commit-before, tracked changes are gone, untracked files survive unless the stash took them, and the stash gained the revert entry exactly when there were changes and the stash worked; returns record k's text |
| PromptTracker.GetPromptList | src-tauri/src/commands/prompt_tracker.rs:427-433 | the stored records (empty when the file is missing); an error is the load error with "Failed to load prompts: " in front |
| SimpleGit.TrimRevParseOutput | src-tauri/src/commands/simple_git.rs:99-102 | trimming `rev-parse` output (id plus newline) gives the commit id back |
| SimpleGit.Repo.CurrentCommit | src-tauri/src/commands/simple_git.rs:84-104 | runs `rev-parse HEAD`; succeeds iff HEAD resolves, returning the HEAD commit id |
| SimpleGit.Repo.EnsureGitRepo | src-tauri/src/commands/simple_git.rs:14-81 | with `.git` and a resolving HEAD only the probe runs; without `.git` `init` runs first and its failure returns before any commit; identity settings are ignored; success iff the repository was ready or git can run and write, and afterwards HEAD resolves |
| SimpleGit.Repo.ResetHardTo | src-tauri/src/commands/simple_git.rs:108-127 | runs `reset --hard target`; succeeds exactly when git runs, can write, `.git` exists and the target is a known commit; on success HEAD is the target and tracked files are clean; untracked files are kept either way; on failure HEAD and the tracked changes stay |
| SimpleGit.Repo.StashSaveChanges | src-tauri/src/commands/simple_git.rs:130-163 | only a spawn failure is an error; a clean working copy runs nothing after `status`; otherwise `stash save -u` runs and, when it exits with 0, tracked and untracked changes move to a new newest stash entry; a failing stash changes nothing |
| SimpleGit.Repo.CommitChangesNow | src-tauri/src/commands/prompt_tracker.rs:346-358 | the auto-commit the tracker calls: `Ok(true)` exactly when git runs and can write and there are changes, and then HEAD is a new commit and the working copy is clean, untracked files included; otherwise HEAD and the changes stay; an error exactly when git cannot run, `.git` is missing, or there are changes it cannot commit |
| SimpleGit.Repo.CheckAndInitGit | src-tauri/src/commands/simple_git.rs:168-175 | returns whether `.git` was missing before the call, and afterwards HEAD resolves; errors of `ensure_git_repo` are passed on |
| SessionView.FindRef | src/components/ClaudeCodeSession.tsx:487 | the first position holding the same object (`===`), and none when there is none |
| SessionView.PromptIndexForMessage | src/components/ClaudeCodeSession.tsx:484-527 | -1 when the displayed message is missing or not (by reference) among the messages; otherwise the number of qualifying messages up to and including its first occurrence (no earlier message has that reference), less one |
| SessionView.SessionCountMonotone | src/components/ClaudeCodeSession.tsx:492-526 | a longer prefix never holds fewer qualifying messages |
| SessionView.IndexMonotone | src/components/ClaudeCodeSession.tsx:492-526 | the index never decreases along the message list |
| SessionView.IndexOfPrompt | src/components/ClaudeCodeSession.tsx:492-526 | a qualifying message at position p gets exactly the number of qualifying messages before p |
| SessionView.PromptIndicesIncrease | src/components/ClaudeCodeSession.tsx:492-526 | two qualifying messages get distinct indices, in message order |
| SessionView.IndexOfDisplayed | src/components/ClaudeCodeSession.tsx:486-489 | when no two messages are the same object, a displayed message gets the index of its own position |
| SessionView.SessionScreen.HandleRevert | src/components/ClaudeCodeSession.tsx:531-604 | without a session nothing happens; a listed length of at most k sets the mismatch error and calls nothing else; a failure fetching the list does not stop the revert; a failed revert sets "撤回失败：" + error; otherwise the history is reloaded (a list, or an object's `messages`) and a non-empty prompt text is restored to a mounted input |
| RevertPicker.ItemTexts | src/components/RevertPromptPicker.tsx:49-55 | one text per array element, in order: a bare string itself, an object its non-empty `text`, else "" |
| RevertPicker.ExtractTextFromMessage | src/components/RevertPromptPicker.tsx:39-60 | "" without content; a string as it is; an array's texts joined with " " and trimmed, so never starting or ending in whitespace |
| RevertPicker.ArrayTextEmptyIff | src/components/RevertPromptPicker.tsx:47-56 | an array yields "" iff no element contributes non-blank text |
| RevertPicker.TruncateText | src/components/RevertPromptPicker.tsx:65-68 | the text when its length is at most max, else its first max characters followed by "...", so never longer than max + 3 |
| RevertPicker.PromptList | src/components/RevertPromptPicker.tsx:85-105 | one entry per user message with non-empty extracted text, numbered 0, 1, 2, … with strictly increasing message positions, text and an 80-character preview |
| RevertPicker.PromptListComplete | src/components/RevertPromptPicker.tsx:89-100 | every qualifying message has an entry |
| RevertPicker.BuildPromptList | src/components/RevertPromptPicker.tsx:85-105 | the `forEach` with a running prompt number builds exactly `PromptList` |
| RevertPicker.Picker.constructor | src/components/RevertPromptPicker.tsx:108-113 | opens on entry 0 in mode "both"; an empty list asks to close at once (together with lines 79-80) |
| RevertPicker.Picker.KeyDown | src/components/RevertPromptPicker.tsx:127-167 | Escape closes; ArrowUp/ArrowDown move within [0, len−1]; Enter selects the entry's index and mode then closes, only when the entry exists; 1/2/3 set conversation_only/code_only/both; nothing else changes |
| PromptIdentity.SameArrayText | src-tauri/src/commands/prompt_tracker.rs:154-165 | the back end and the session screen concatenate the same strings from an array |
| PromptIdentity.TextNeedsTextSegment | src/components/ClaudeCodeSession.tsx:505-508 | non-empty array text comes from a `text` segment carrying a string |
| PromptIdentity.NonBlankTextHasNonBlankSegment | src/components/ClaudeCodeSession.tsx:505-508 | non-blank array text has a `text` segment whose own string is non-blank |
| PromptIdentity.JsNonBlankIsRustNonBlank | src-tauri/src/commands/prompt_tracker.rs:149 | without U+0085, a string JavaScript's `trim` leaves non-empty is non-empty after Rust's `trim` too |
| PromptIdentity.RustPromptIsSessionPrompt | src-tauri/src/commands/prompt_tracker.rs:103-191 | an entry the back end counts is counted by the session screen, unless its text is blank to JavaScript |
| PromptIdentity.SessionPromptIsRustPrompt | src/components/ClaudeCodeSession.tsx:492-526 | an entry the session screen counts is counted by the back end, unless it is a side-chain entry, a sub-agent entry, a skill banner, or non-blank only through U+0085 |
| PromptIdentity.SessionPromptIsPickerPrompt | src/components/RevertPromptPicker.tsx:89-90 | every entry the session screen counts is listed by the picker |
| PromptIdentity.WarmupIsSkippedEverywhere | src/hooks/usePromptExecution.ts:164-178 | a prompt containing "Warmup" is not recorded, and neither transcript rule counts it |
| PromptIdentity.RecordedPromptIsCountedEverywhere | src-tauri/src/commands/prompt_tracker.rs:313-314 | a recorded typed prompt with non-blank text, no skill banner and no U+0085 is counted by all three rules, so the record index and the transcript count agree on it |
| PromptIdentity.EmptyTextSegmentDiverges | src-tauri/src/commands/prompt_tracker.rs:157-159 | an array with one empty `text` segment is counted by the back end and not by the session screen |
| PromptIdentity.SidechainDiverges | src-tauri/src/commands/prompt_tracker.rs:118-125 | a side-chain entry is counted by the session screen and not by the back end |
| PromptIdentity.SkillBannerDiverges | src-tauri/src/commands/prompt_tracker.rs:183-185 | a skill banner is counted by the session screen and not by the back end |
| PromptIdentity.BareStringDiverges | src/components/RevertPromptPicker.tsx:50 | an array holding only a bare string is listed by the picker and counted by neither rule |
| PromptIdentity.WarmupDivergesForPicker | src/components/RevertPromptPicker.tsx:85-105 | the warm-up prompt is listed by the picker and counted by neither rule |
| PromptIdentity.AgreeingRulesCountAlike | src-tauri/src/commands/prompt_tracker.rs:103-191 | on an entry that is not a side chain, a sub-agent entry or a skill banner, has no U+0085 and is non-blank to JavaScript when the back end counts it, the back end and the session screen count it alike |
| PromptIdentity.PrefixCountsAgree | src-tauri/src/commands/prompt_tracker.rs:97-229 | on a transcript whose entries all satisfy those conditions, the back end's count of real prompts in the first n lines equals the session screen's count of qualifying messages in the first n messages |
| PromptIdentity.CutIsSessionIndex | src-tauri/src/commands/prompt_tracker.rs:97-229 | on such a transcript, the back end cuts at line p for prompt k exactly when message p qualifies for the session screen and the screen gives it index k |
| PromptIdentity.RevertTargetsDisplayedPrompt | src/components/ClaudeCodeSession.tsx:484-527 | on such a transcript, the index the session screen computes for a displayed qualifying message is non-negative and the back end, given that index, cuts at exactly that message's line |
| MessageFilter.IsEmptyUserMessage | src/lib/messageFilter.ts:54-77 | never for non-user messages; for user messages true exactly for falsy content (absent, "", 0, false, null), an empty array, or a string that trims to nothing; a truthy object or number is not empty |
| MessageFilter.ToolResultIds | src/lib/messageFilter.ts:104-107 | exactly the `tool_use_id`s of the `tool_result` items that carry one |
| MessageFilter.ExtractToolUseIds | src/lib/messageFilter.ts:99-108 | [] unless the message is a tool result, else exactly the ids its results answer |
| MessageFilter.ShouldDeduplicateToolResult | src/lib/messageFilter.ts:115-124 | holds iff the message is a tool result with a non-empty id list whose every id is in the widget list |
| MessageFilter.FilterDisplayableMessages | src/lib/messageFilter.ts:132-167 | exactly the messages that pass every enabled rule (meta, empty user, deduplication, custom test) |
| MessageFilter.FilterDisplayableIsSubsequence | src/lib/messageFilter.ts:132-167 | the output is an order-preserving subsequence of the input |
| MessageFilter.AllRulesOffKeepsAll | src/lib/messageFilter.ts:132-167 | with every rule off and no custom test the filter is the identity |
| MessageFilter.ToolUseIds | src/lib/messageFilter.ts:185-189 | exactly the ids of the `tool_use` items that carry one |
| MessageFilter.WidgetToolIds | src/lib/messageFilter.ts:173-194 | an id is listed iff some assistant message uses a tool under it |
| MessageFilter.ExtractToolsWithWidgets | src/lib/messageFilter.ts:173-194 | the nested loop collects exactly `WidgetToolIds`, in message and content order |
| MessageFilter.SmartFilterHidesAnsweredResults | src/lib/messageFilter.ts:202-213 | with deduplication on, a tool-result message whose every answered tool use appears in the list is hidden |
| MessageFilter.Reason | src/lib/messageFilter.ts:253-282 | a message has no hiding reason iff it passes every enabled rule |
| MessageFilter.GetFilterStats | src/lib/messageFilter.ts:240-284 | total = number of messages, displayed = its size, filtered = the difference; each bucket counts the missing messages whose first failed rule is that bucket's |
| MessageFilter.ShownIffKept | src/lib/messageFilter.ts:253-282 | when no two messages are the same object, a message is displayed iff it passes |
| MessageFilter.StatsBucketsAddUp | src/lib/messageFilter.ts:253-282 | on the filter's own output each hidden message is counted under exactly one reason, so the four buckets add up to the number filtered out |
| DisplayableMessages.FindToolUse | src/hooks/useDisplayableMessages.ts:71-73 | the first `tool_use` item with the id, or none |
| DisplayableMessages.ProducerBefore | src/hooks/useDisplayableMessages.ts:63-101 | the nearest earlier assistant message that used a tool under the id, or none |
| DisplayableMessages.DisplayablePositions | src/hooks/useDisplayableMessages.ts:27-28 | the output is embedded, in order, at exactly the kept positions |
| DisplayableMessages.DisplayableIsSubsequence | src/hooks/useDisplayableMessages.ts:27-28 | the output is an order-preserving subsequence of the input |
| DisplayableMessages.ScanWillBeSkipped | src/hooks/useDisplayableMessages.ts:58-102 | the backward scan decides exactly `WillBeSkipped`: the nearest earlier use of the id names one of the ten widget tools (lower-cased) or starts with "mcp__" |
| DisplayableMessages.KeepMessage | src/hooks/useDisplayableMessages.ts:28-121 | the per-message test with its early exits decides exactly `KeepAt`: bare meta and meta user messages dropped, falsy or empty-array user content dropped, user arrays kept iff some item is `text` or a non-skipped tool result, everything else kept |
| DisplayableMessages.DisplayableMessagesOf | src/hooks/useDisplayableMessages.ts:26-123 | the hook's filter returns exactly the kept messages in order |
| DisplayableMessages.KeptEmptyIsBlankString | src/hooks/useDisplayableMessages.ts:42-44 | a kept user message that `isEmptyUserMessage` calls empty is a whitespace-only string: the hook tests truthiness, not blankness |
| DisplayableMessages.BlankStringDiverges | src/hooks/useDisplayableMessages.ts:42-44 | a whitespace-only prompt is displayed by the hook and hidden by the default configurable filter |
| Usage.LongNamesContainShortOnes | src-tauri/src/commands/usage.rs:121-128 | the "claude-opus-4" and "claude-sonnet-4" alternatives of the tier tests are subsumed by the shorter names |
| Usage.CostTier | src-tauri/src/commands/usage.rs:113-146 | a model is priced as Opus 4 iff its name contains "opus-4", as Sonnet 4 iff not that and it contains "sonnet-4", as Sonnet 3.5 iff neither and it contains "3.5", "35" or "sonnet", and at zero prices otherwise |
| Usage.StepEntry | src-tauri/src/commands/usage.rs:189-237 | a keyed entry already seen adds nothing; otherwise its key is recorded, and a record is appended exactly when the usage is present and not all zero |
| Usage.StepParsed | src-tauri/src/commands/usage.rs:179-189 | the first `cwd` fixes the project path and is never replaced; lines without an entry carrying a message add nothing |
| Usage.BlankIsTrimEmpty | src-tauri/src/commands/usage.rs:175-177 | a line is skipped as blank exactly when its Rust trim is empty |
| Usage.Step | src-tauri/src/commands/usage.rs:174-239 | one line adds at most one record, each record has a non-zero count, and the seen keys only grow |
| Usage.ParseLines | src-tauri/src/commands/usage.rs:174-239 | over the lines in order: records are only appended, never more than one per line, all non-zero, and the seen keys only grow |
| Usage.ParseLinesAppend | src-tauri/src/commands/usage.rs:174 | parsing `a + b` is parsing `b` from the state `a` leaves |
| Usage.SeenKeyIsSkipped | src-tauri/src/commands/usage.rs:191-195 | a line whose `msg_id:req_id` was seen adds no record and no key |
| Usage.KeyIsRecorded | src-tauri/src/commands/usage.rs:191-197 | a keyed line records its key even when its usage is then skipped as zero or missing |
| Usage.ZeroUsageIsSkipped | src-tauri/src/commands/usage.rs:199-208 | a line whose usage is missing or all zero adds no record |
| Usage.SeenKeyEmitsNothing | src-tauri/src/commands/usage.rs:191-195 | line `j` of a file adds nothing when its key was seen before the loop reached it |
| Usage.RepeatedKeyInFile | src-tauri/src/commands/usage.rs:191-197 | of two lines of one file with the same key, the later adds nothing |
| Usage.FileRecordsKeys | src-tauri/src/commands/usage.rs:191-197 | every keyed non-blank line's key is in the set a file hands on |
| Usage.KeyOfEarlierFileIsSkipped | src-tauri/src/commands/usage.rs:271-299 | a key seen in an earlier file suppresses the line of a later file, because one set is shared by all files |
| Usage.ParseJsonlFile | src-tauri/src/commands/usage.rs:157-246 | the loop returns exactly the records and seen keys of `ParseFile`, none for an unreadable file |
| Usage.CollectFrom | src-tauri/src/commands/usage.rs:297-300 | the seen keys only grow across files and every collected record has a non-zero count |
| Usage.CollectUsageEntries | src-tauri/src/commands/usage.rs:269-300 | the files are read in the order of their earliest timestamp, and the result is exactly the concatenation `CollectFrom` defines over that order, all records non-zero |
| Usage.CachedKeys | src-tauri/src/commands/usage.rs:295 | each file paired with its earliest timestamp, computed once per file, in directory order |
| Usage.ReadFiles | src-tauri/src/commands/usage.rs:297-300 | reading the files in the given order yields exactly the concatenation `CollectFrom` defines, with one set of seen hashes shared by all files |
| Usage.ProcessingOrderFacts | src-tauri/src/commands/usage.rs:293-295 | the processing order is a permutation of the files, and no file comes after one with a later earliest timestamp (no timestamp sorting first) |
| Usage.LessCountStrict | src-tauri/src/commands/usage.rs:295 | a key smaller than another that occurs among the files has a strictly smaller rank, so the rank respects the order of `Option<String>` |
| Usage.Earliest | src-tauri/src/commands/usage.rs:248-267 | None iff no line has a timestamp; otherwise some line's timestamp that no other timestamp precedes in string order |
| Usage.GetEarliestTimestamp | src-tauri/src/commands/usage.rs:248-267 | None for an unreadable file, otherwise exactly `Earliest` of its lines |
| Usage.NothingUnder | src-tauri/src/commands/usage.rs:359-447 | with no record under a key, its sums and count are zero |
| Usage.SumWhereAtMostSum | src-tauri/src/commands/usage.rs:359-447 | a per-key sum never exceeds the total sum |
| Usage.ProjectName | src-tauri/src/commands/usage.rs:421-427 | the name is the longest '/'-free suffix of the path: the whole path or what follows its last '/' |
| Usage.ModelTable | src-tauri/src/commands/usage.rs:368-386 | the per-model table is keyed by exactly the models that occur |
| Usage.DayTableKeys | src-tauri/src/commands/usage.rs:388-414 | the per-day table is keyed by exactly the dates that occur |
| Usage.ProjectTable | src-tauri/src/commands/usage.rs:416-441 | the per-project table is keyed by exactly the project paths that occur |
| Usage.ModelRowSums | src-tauri/src/commands/usage.rs:368-386 | a model's row sums that model's four counts, its total is input plus output only, and its session count is its number of records |
| Usage.DayRowSums | src-tauri/src/commands/usage.rs:401-411 | a day's total sums all four counts of the records dated that day |
| Usage.DayRowDistinct | src-tauri/src/commands/usage.rs:412-414 | a day's model list has no duplicates |
| Usage.DayRowSound | src-tauri/src/commands/usage.rs:412-414 | a day's model list holds only models used that day |
| Usage.DayRowComplete | src-tauri/src/commands/usage.rs:412-414 | a day's model list holds every model used that day |
| Usage.DayRowModels | src-tauri/src/commands/usage.rs:401-414 | a day's model list holds each model used that day exactly once |
| Usage.ProjectRowSums | src-tauri/src/commands/usage.rs:416-438 | a project's row sums all four counts of its records, counts them, and is named by the path's last segment |
| Usage.ProjectLastUsed | src-tauri/src/commands/usage.rs:417-441 | a project's last use is the greatest timestamp string among its records |
| Usage.SessionsAtMostRecords | src-tauri/src/commands/usage.rs:618 | there are never more distinct session ids than records |
| Usage.CategoryTotalsAddUp | src-tauri/src/commands/usage.rs:444-447 | the overall token total equals the sum of every record's four counts |
| Usage.AggregateUsage | src-tauri/src/commands/usage.rs:359-448 | the aggregation loop yields exactly `Summary`: per-category sums, their total, the three tables, one session per record |
| Usage.GetUsageStats | src-tauri/src/commands/usage.rs:309-471 | zero statistics when there are no records at all; otherwise the summary of the records the optional window keeps |
| Usage.GetUsageByDateRange | src-tauri/src/commands/usage.rs:474-635 | an unreadable bound is an error; no record in range gives zero statistics; otherwise the summary of the records in range with distinct session ids as the session total |
| Usage.GetSessionStats | src-tauri/src/commands/usage.rs:637-697 | the per-project table of the records the date filter keeps |
| Pricing.TierOf | src/lib/pricing.ts:58-82 | a missing or empty name takes the default; otherwise the lower-cased name selects Opus iff it contains "opus-4" or "opus 4", Sonnet 4.5 iff not that and it contains "sonnet-4.5" or "sonnet 4.5", Sonnet 3.5 iff neither and it contains "sonnet-3.5", "sonnet 3.5" or "35" |
| Pricing.GetPricingForModel | src/lib/pricing.ts:19-82 | every name gets either the Opus table or the Sonnet-priced default table, the Opus one exactly for the Opus tier |
| Pricing.TierIgnoresCase | src/lib/pricing.ts:63 | a name and its lower-cased form select the same tier |
| Pricing.UpperCaseOpusIsOpus | src/lib/pricing.ts:63-68 | "Claude-Opus-4" is priced as Opus |
| Pricing.UnknownModelPricedDifferently | src/lib/pricing.ts:80-81 | "claude-haiku" is unpriced (zero cost) by the back end's `calculate_cost` but charged the non-zero default prices here |
| Pricing.ReadFormatDuration | src/lib/pricing.ts:129-149 | reading a rendered duration back gives the seconds below an hour and the seconds rounded down to the minute from an hour on |
| Pricing.FormatDurationInjectiveBelowHour | src/lib/pricing.ts:129-141 | below an hour, different whole-second durations render differently |
| Base64.EncodeBody | src/lib/promptEnhancementService.ts:75 | `btoa` without padding yields only alphabet characters, four per three bytes, two or three for a trailing one or two bytes |
| Base64.Encode | src/lib/promptEnhancementService.ts:75 | the padded encoding has a length divisible by four |
| Base64.RemoveWhitespace | src/lib/promptEnhancementService.ts:80 | `atob` first drops the ASCII whitespace, leaving none |
| Base64.ValuesChars | src/lib/promptEnhancementService.ts:75-80 | the 64-character alphabet is read back to the 6-bit values it was written from |
| Base64.BytesSextets | src/lib/promptEnhancementService.ts:75-80 | regrouping the 6-bit values of any bytes, including a trailing one or two, gives the bytes back |
| Base64.DecodeEncodeBody | src/lib/promptEnhancementService.ts:75-80 | decoding the unpadded encoding gives the bytes back |
| Base64.DecodeEncode | src/lib/promptEnhancementService.ts:75-80 | `atob(btoa(bytes))` is the bytes |
| Base64.OneCharIsInvalid | src/lib/promptEnhancementService.ts:80 | a single non-whitespace character is not valid input for `atob`, which throws |
| PromptEnhancement.XorSalt | src/lib/promptEnhancementService.ts:70-74 | the salted XOR keeps the length of the text |
| PromptEnhancement.XorSaltInvolution | src/lib/promptEnhancementService.ts:70-85 | XOR with the same salt twice gives the text back, an empty salt included |
| PromptEnhancement.FromToBytes | src/lib/promptEnhancementService.ts:75-80 | Latin-1 code units survive the conversion to bytes and back |
| PromptEnhancement.Btoa | src/lib/promptEnhancementService.ts:75 | `btoa` succeeds iff every code unit is below 256 |
| PromptEnhancement.Atob | src/lib/promptEnhancementService.ts:80 | `atob` succeeds iff its input is valid base64 |
| PromptEnhancement.AtobBtoa | src/lib/promptEnhancementService.ts:75-80 | `atob(btoa(u))` is `u` for Latin-1 units |
| PromptEnhancement.DecryptEncrypt | src/lib/promptEnhancementService.ts:70-89 | whenever encryption succeeds, decryption with the same salt gives the key back |
| PromptEnhancement.EncryptSucceedsIff | src/lib/promptEnhancementService.ts:70-76 | with a Latin-1 salt, encryption succeeds iff the key is Latin-1 |
| PromptEnhancement.DecryptOneChar | src/lib/promptEnhancementService.ts:78-88 | an undecodable stored key decrypts to the empty string |
| PromptEnhancement.XorLoop | src/lib/promptEnhancementService.ts:71-74 | the character loop computes exactly the salted XOR |
| PromptEnhancement.SimpleEncrypt | src/lib/promptEnhancementService.ts:70-76 | `simpleEncrypt` is `btoa` of the salted XOR, failing where `btoa` throws |
| PromptEnhancement.SimpleDecrypt | src/lib/promptEnhancementService.ts:78-89 | `simpleDecrypt` is the salted XOR of `atob`, and "" where `atob` throws |
| PromptEnhancement.CurrentSalt | src/lib/promptEnhancementService.ts:94-101 | a stored non-empty salt is used as it is |
| PromptEnhancement.CurrentSaltStable | src/lib/promptEnhancementService.ts:94-101 | once a salt is stored, asking again gives the same salt |
| PromptEnhancement.EncryptKeys | src/lib/promptEnhancementService.ts:139-142 | the provider loop encrypts every key, failing if any key cannot be encrypted |
| PromptEnhancement.EncryptProvider | src/lib/promptEnhancementService.ts:139-142 | the map callback succeeds exactly when the key encrypts, and then gives the provider with only its key replaced by the encrypted one |
| PromptEnhancement.DecryptProviders | src/lib/promptEnhancementService.ts:117-120 | each provider keeps its place and fields and gets its key decrypted |
| PromptEnhancement.EncryptConfig | src/lib/promptEnhancementService.ts:132-148 | the stored form exists iff every key encrypts, and keeps the last-used provider id |
| PromptEnhancement.Loaded | src/lib/promptEnhancementService.ts:106-127 | no stored item or an unparsable one loads as the empty configuration |
| PromptEnhancement.LoadSaved | src/lib/promptEnhancementService.ts:106-149 | loading what was saved gives the saved configuration back |
| PromptEnhancement.SaveFailureKeepsItem | src/lib/promptEnhancementService.ts:146-148 | when some key cannot be encrypted, the stored item is left as it was |
| PromptEnhancement.FindIndex | src/lib/promptEnhancementService.ts:386 | the index found is the first provider with the id, and None means no provider has it |
| PromptEnhancement.Merge | src/lib/promptEnhancementService.ts:388 | the spread takes each field from the update when it is given and from the provider otherwise |
| PromptEnhancement.MergeNothing | src/lib/promptEnhancementService.ts:388 | an empty update changes nothing |
| PromptEnhancement.Updated | src/lib/promptEnhancementService.ts:384-391 | only the first provider with the id is merged, all others are kept; no match leaves the list as it is |
| PromptEnhancement.UpdateTouchesFirstOnly | src/lib/promptEnhancementService.ts:386-388 | a later provider with a duplicate id is left unchanged |
| PromptEnhancement.DeleteRemovesId | src/lib/promptEnhancementService.ts:396-400 | after deletion no provider has the id, every other provider remains, and the order is kept |
| PromptEnhancement.BaseUrl | src/lib/promptEnhancementService.ts:178 | the base URL is the API URL, or it with one trailing '/' removed |
| PromptEnhancement.BaseUrlSlashes | src/lib/promptEnhancementService.ts:259-260 | only one slash is removed: a URL ending in "//" still leaves one, contrary to the comment's promise to avoid double slashes (together with line 178) |
| PromptEnhancement.ChatEndpoint | src/lib/promptEnhancementService.ts:178-181 | the OpenAI endpoint is the base URL followed by "/chat/completions" |
| PromptEnhancement.GeminiEndpoint | src/lib/promptEnhancementService.ts:260-263 | the Gemini endpoint is the base URL, "/v1beta/models/", the model and ":generateContent?key=" followed by the key |
| PromptEnhancement.EndpointOf | src/lib/promptEnhancementService.ts:324-329 | the Gemini format goes to the Gemini endpoint and every other format to the chat endpoint |
| PromptEnhancement.ProviderStorage.constructor | src/lib/promptEnhancementService.ts:27-28 | the storage starts with the given item and salt |
| PromptEnhancement.ProviderStorage.GetEncryptionSalt | src/lib/promptEnhancementService.ts:94-101 | returns the current salt and stores it |
| PromptEnhancement.ProviderStorage.LoadConfig | src/lib/promptEnhancementService.ts:106-127 | returns `Loaded` of the item under the current salt; a salt is only created when there is a parsable item |
| PromptEnhancement.ProviderStorage.SaveConfig | src/lib/promptEnhancementService.ts:132-149 | stores the salt and the encrypted configuration, or keeps the item when encryption fails |
| PromptEnhancement.ProviderStorage.GetEnabledProviders | src/lib/promptEnhancementService.ts:367-370 | the enabled providers of the loaded configuration, in order |
| PromptEnhancement.ProviderStorage.GetProvider | src/lib/promptEnhancementService.ts:405-408 | the first loaded provider with the id, or None |
| PromptEnhancement.ProviderStorage.AddProvider | src/lib/promptEnhancementService.ts:375-379 | saves the loaded configuration with the provider appended |
| PromptEnhancement.ProviderStorage.UpdateProvider | src/lib/promptEnhancementService.ts:384-391 | with no provider of that id nothing is saved; otherwise the updated list is saved |
| PromptEnhancement.ProviderStorage.DeleteProvider | src/lib/promptEnhancementService.ts:396-400 | saves the loaded configuration without the providers of that id |
| PromptEnhancement.AddThenLoad | src/lib/promptEnhancementService.ts:375-379 | after adding, a later load lists the earlier providers followed by the new one (together with lines 106-127) |
| PromptEnhancement.DeleteThenLoad | src/lib/promptEnhancementService.ts:396-400 | after deleting, a later load lists the other providers in order, none with the id, with the last-used id kept (together with lines 106-127) |
| ToolRegistry.NonEmpty | src/lib/toolRegistryInit.tsx:60 | `filter(Boolean)` keeps exactly the non-empty strings |
| ToolRegistry.ExtractStringContent | src/lib/toolRegistryInit.tsx:50-86 | a string is returned as it is, null and undefined become "", and an object's string `text` field wins |
| ToolRegistry.ObjectFieldPriority | src/lib/toolRegistryInit.tsx:63-82 | for an object the first string among `text`, `message` and `content` is returned, else its JSON rendering |
| ToolRegistry.ArrayOfLines | src/lib/toolRegistryInit.tsx:59-61 | an array of one-line strings becomes its non-empty strings, one per line, in order |
| ToolRegistry.ArrayOfEmpties | src/lib/toolRegistryInit.tsx:59-61 | empty, null and undefined elements leave no blank line: such an array renders as "" |
| ToolRegistry.FindFrom | src/lib/toolRegistryInit.tsx:93-94 | the tag found is the first occurrence, matched without regard to case, at or after the start position, and there is none exactly when no position matches |
| ToolRegistry.MatchFrom | src/lib/toolRegistryInit.tsx:93-94 | the captured bounds are ordered and lie within the text |
| ToolRegistry.MatchIsTagPair | src/lib/toolRegistryInit.tsx:93-94 | a match opens with the opening tag and its lazy capture ends at the first closing tag after it |
| ToolRegistry.MatchIsLeftmost | src/lib/toolRegistryInit.tsx:93-94 | no opening tag before the match is followed by a closing tag, and without a match no opening tag is |
| ToolRegistry.ExtractTaggedValue | src/lib/toolRegistryInit.tsx:88-96 | empty content gives nothing; a value is the non-empty trimmed capture of the first match |
| ToolRegistry.ShortestMatch | src/lib/toolRegistryInit.tsx:93 | the lazy capture holds no closing tag and is followed by one |
| ToolRegistry.NoOpenTagNoValue | src/lib/toolRegistryInit.tsx:93-95 | content without the opening tag yields nothing |
| ToolRegistry.TagIgnoresCase | src/lib/toolRegistryInit.tsx:93 | the tag matches whatever the case of its letters |
| ToolRegistry.Coalesce | src/lib/toolRegistryInit.tsx:266 | `??` takes the right operand exactly when the left one is null or undefined |
| ToolRegistry.ReminderMessage | src/lib/toolRegistryInit.tsx:266-271 | the message is never empty: the tagged value if there is one, else the trimmed text, else the default "系统提醒" |
| ToolRegistry.SystemReminderProps | src/lib/toolRegistryInit.tsx:265-272 | the widget always gets a non-empty message, taken from a string `input.message` when there is one |
| ToolRegistry.SystemReminderNames | src/lib/toolRegistryInit.tsx:264 | `/^system[-_]reminder$/` accepts exactly "system-reminder" and "system_reminder" |
| ToolRegistry.CommandOutputNames | src/lib/toolRegistryInit.tsx:305 | `/^command[-_]?(output\|result)$/` accepts exactly the six names built from "command", an optional '-' or '_', and "output" or "result" |
| ToolRegistry.CommandOutputShape | src/lib/toolRegistryInit.tsx:305 | every accepted command-output name is one of the six |
| ToolRegistry.SystemInitializedNames | src/lib/toolRegistryInit.tsx:327 | `/^system[_-]?init(?:ialized)?$/` accepts exactly the six names built from "system", an optional '-' or '_', and "init" or "initialized" |
| ToolRegistry.SystemInitializedShape | src/lib/toolRegistryInit.tsx:327 | every accepted system-initialized name is one of the six |
| ToolRegistry.PatternsDisjoint | src/lib/toolRegistryInit.tsx:240-327 | no tool name matches two of the MCP, system-reminder, command-output and system-initialized patterns |
| Extensions.TrimStartMatches | src-tauri/src/commands/extensions.rs:54 | `trim_start_matches` leaves a suffix of the line that no longer starts with the pattern |
| Extensions.TrimEndMatches | src-tauri/src/commands/extensions.rs:183 | `trim_end_matches` leaves a prefix of the name that no longer ends with the pattern |
| Extensions.FrontmatterFromSpec | src-tauri/src/commands/extensions.rs:48-56 | the frontmatter scan stops at the first "description:" line before any closing "---" |
| Extensions.FirstPlainFromSpec | src-tauri/src/commands/extensions.rs:60-62 | the fallback line is the first line that is not blank and does not start with '#', and there is none exactly when no line qualifies |
| Extensions.ParseDescriptionFromContent | src-tauri/src/commands/extensions.rs:43-63 | the loop returns exactly `Description`: the trimmed frontmatter value if found, else the first plain line trimmed |
| Extensions.FrontmatterDescription | src-tauri/src/commands/extensions.rs:47-55 | with a frontmatter whose first "description:" line comes before any "---", that line's trimmed value is the description |
| Extensions.FallbackDescription | src-tauri/src/commands/extensions.rs:59-62 | without a frontmatter the description is the first plain line trimmed, and None iff there is no plain line |
| Extensions.FrontmatterWithoutDescription | src-tauri/src/commands/extensions.rs:47-62 | a frontmatter without a description line falls back to its own opening "---" as the description |
| Extensions.LastDotSpec | src-tauri/src/commands/extensions.rs:102-108 | the dot that splits the extension is the last one in the name, or there is none |
| Extensions.AgentNameIsStem | src-tauri/src/commands/extensions.rs:102-109 | an agent file's name is its non-empty stem, and the stem plus ".md" is the file name |
| Extensions.MdExtensionIff | src-tauri/src/commands/extensions.rs:102 | a file name has the extension "md" exactly when it ends in ".md" and the dot is not its first character, which is how the agent filter is stated |
| Extensions.AgentNameExamples | src-tauri/src/commands/extensions.rs:102 | "a.b.md" is the agent "a.b", while ".md" and "notes.MD" are not agent files |
| Extensions.SkillName | src-tauri/src/commands/extensions.rs:183 | a skill name never ends with '.' |
| Extensions.SkillNameExamples | src-tauri/src/commands/extensions.rs:178-183 | "my-tool.SKILL.md" is the skill "my-tool" and a bare "SKILL.md" has the empty name |
| Extensions.SkillNamePrefix | src-tauri/src/commands/extensions.rs:183 | a skill name is a prefix of its file name |
| Extensions.Agents | src-tauri/src/commands/extensions.rs:91-131 | at most one agent per walked entry, each with the scope of the directory |
| Extensions.Skills | src-tauri/src/commands/extensions.rs:159-205 | at most one skill per walked entry, each with the scope of the directory |
| Extensions.AgentsComeFromMdFiles | src-tauri/src/commands/extensions.rs:101-123 | every agent comes from a readable `.md` file of the walk |
| Extensions.MdFilesBecomeAgents | src-tauri/src/commands/extensions.rs:101-123 | every readable `.md` file of the walk becomes an agent |
| Extensions.ScanAgentsDirectory | src-tauri/src/commands/extensions.rs:91-131 | the loop over the walk returns exactly `Agents`, skipping unreadable files |
| Extensions.ScanSkillsDirectory | src-tauri/src/commands/extensions.rs:159-205 | the loop over the walk returns exactly `Skills`, skipping unreadable files |
| Extensions.ListAgents | src-tauri/src/commands/extensions.rs:67-88 | the user directory's agents (none when it does not exist) come first, unchanged, and the rest of the list is exactly the project directory's agents (none when it does not exist); every user entry precedes every project entry |
| Extensions.ListSkills | src-tauri/src/commands/extensions.rs:135-156 | the user directory's skills (none when it does not exist) come first, unchanged, and the rest of the list is exactly the project directory's skills (none when it does not exist); every user entry precedes every project entry |
| SlashCommands.QueryScan | src/components/FloatingPromptInput/hooks/useSlashCommands.ts:47-57 | the scan finds a "/" left of the cursor with only query characters between, and None means there is no such "/" |
| SlashCommands.QueryOf | src/components/FloatingPromptInput/hooks/useSlashCommands.ts:47-61 | the query holds no "/", space or line feed, is what follows the "/" up to the cursor, and is None iff no such "/" exists |
| SlashCommands.LastSlash | src/components/FloatingPromptInput/hooks/useSlashCommands.ts:75-81 | the "/" found is the last one before the cursor, or there is none |
| SlashCommands.Selected | src/components/FloatingPromptInput/hooks/useSlashCommands.ts:74-120 | None iff no "/" lies before the cursor; otherwise the text before the "/", the command and a space, followed by the text after the cursor unless the command takes arguments, with the cursor after the space |
| SlashCommands.OpenedQueryIsEmpty | src/components/FloatingPromptInput/hooks/useSlashCommands.ts:27-61 | right after the picker opens, the query of that text and cursor is empty |
| SlashCommands.SelectedCursorAfterCommand | src/components/FloatingPromptInput/hooks/useSlashCommands.ts:89-119 | after a selection the cursor stands right after the command and its space, and without arguments the text after the old cursor follows it unchanged |
| SlashCommands.SelectReplacesQuery | src/components/FloatingPromptInput/hooks/useSlashCommands.ts:89-111 | a selection made while the query is `q` replaces exactly "/" followed by `q`, the text just before the cursor |
| SlashCommands.LastSlashOfWord | src/components/FloatingPromptInput/hooks/useSlashCommands.ts:47-81 | the "/" the query scan finds is also the one the selection uses |
| SlashCommands.SlashPicker.constructor | src/components/FloatingPromptInput/hooks/useSlashCommands.ts:23-24 | the picker starts hidden with an empty query |
| SlashCommands.SlashPicker.DetectSlashSymbol | src/components/FloatingPromptInput/hooks/useSlashCommands.ts:27-40 | the picker opens with an empty query and moves the cursor exactly when `Opens` holds; otherwise nothing changes |
| SlashCommands.SlashPicker.UpdateSlashCommandQuery | src/components/FloatingPromptInput/hooks/useSlashCommands.ts:43-67 | when shown and the cursor did not move back, the query becomes `QueryOf` the text, or the picker hides when there is no "/"; otherwise nothing changes |
| SlashCommands.SlashPicker.HandleSlashCommandSelect | src/components/FloatingPromptInput/hooks/useSlashCommands.ts:70-121 | without a text area nothing changes; otherwise the picker hides and the prompt and cursor become `Selected` |
| SlashCommands.SlashPicker.HandleSlashCommandPickerClose | src/components/FloatingPromptInput/hooks/useSlashCommands.ts:124-133 | the picker hides with an empty query and the prompt and cursor stay |
| ImageHandling.AfterLastDot | src/components/FloatingPromptInput/hooks/useImageHandling.ts:33 | `split('.').pop()` is the suffix after the last dot, or the whole path when there is no dot |
| ImageHandling.NoDotIsWholePath | src/components/FloatingPromptInput/hooks/useImageHandling.ts:29-35 | a path without a dot is an image iff it is a data URL or, lower-cased, one of the eight extensions |
| ImageHandling.UpperCaseExtension | src/components/FloatingPromptInput/hooks/useImageHandling.ts:33-34 | "Shot.PNG" is an image: the extension is compared lower-cased |
| ImageHandling.DotInDirectory | src/components/FloatingPromptInput/hooks/useImageHandling.ts:33-34 | "/img.png/readme" is not an image: everything after the last dot counts, slashes included |
| ImageHandling.Mention | src/components/FloatingPromptInput/hooks/useImageHandling.ts:115-117 | a path with a space is mentioned as `@"path"`, any other as `@path` (together with line 256) |
| ImageHandling.Appended | src/components/FloatingPromptInput/hooks/useImageHandling.ts:119 | the new prompt starts with the old one, ends with the mentions and a space, and inserts a separating space only when the old prompt is non-empty and does not end with one (together with line 257) |
| ImageHandling.QuotedPaths | src/components/FloatingPromptInput/hooks/useImageHandling.ts:39-46 | each quoted capture is non-empty and holds no '"' |
| ImageHandling.UnquotedPaths | src/components/FloatingPromptInput/hooks/useImageHandling.ts:40-62 | each unquoted capture is non-empty and holds no '@', line feed or whitespace |
| ImageHandling.UnquotedMatchIsTrimmed | src/components/FloatingPromptInput/hooks/useImageHandling.ts:62 | the `trim()` of an unquoted capture changes nothing |
| ImageHandling.QuotedCandidates | src/components/FloatingPromptInput/hooks/useImageHandling.ts:44-50 | one resolved candidate per quoted mention |
| ImageHandling.UnquotedCandidates | src/components/FloatingPromptInput/hooks/useImageHandling.ts:60-66 | at most one resolved candidate per unquoted mention: those containing "data:" are skipped |
| ImageHandling.AddPathsFacts | src/components/FloatingPromptInput/hooks/useImageHandling.ts:41-69 | the set keeps what it had, gains exactly the image candidates, and never holds a path twice |
| ImageHandling.ImagePathsFacts | src/components/FloatingPromptInput/hooks/useImageHandling.ts:38-73 | the embedded images are distinct and are exactly the image paths among the resolved quoted and unquoted mentions |
| ImageHandling.ExtractImagePaths | src/components/FloatingPromptInput/hooks/useImageHandling.ts:38-73 | the two loops return exactly `ImagePaths` |
| ImageHandling.CollectQuoted | src/components/FloatingPromptInput/hooks/useImageHandling.ts:44-54 | the quoted loop adds exactly the image paths among the resolved quoted mentions |
| ImageHandling.CollectUnquoted | src/components/FloatingPromptInput/hooks/useImageHandling.ts:57-70 | the unquoted loop over the text without quoted mentions adds exactly the image paths among its candidates |
| ImageHandling.AddedMentionIsRead | src/components/FloatingPromptInput/hooks/useImageHandling.ts:250-258 | a prompt free of '@' and '"' with an image mention appended embeds exactly that image (together with lines 38-73) |
| ImageHandling.RemoveAll | src/components/FloatingPromptInput/hooks/useImageHandling.ts:220-233 | removing every match of a pattern never makes the text longer |
| ImageHandling.ReplaceFirst | src/components/FloatingPromptInput/hooks/useImageHandling.ts:213-215 | `replace` with a string removes its first occurrence only, and leaves the text alone when it does not occur |
| ImageHandling.MentionPatterns | src/components/FloatingPromptInput/hooks/useImageHandling.ts:220-228 | four non-empty patterns, each starting with '@' |
| ImageHandling.RemoveUndoesAdd | src/components/FloatingPromptInput/hooks/useImageHandling.ts:210-236 | removing an image just added to a prompt without '@' gives back the trimmed prompt (together with lines 250-258) |
| ImageHandling.RemoveAddedMention | src/components/FloatingPromptInput/hooks/useImageHandling.ts:223-233 | the four patterns remove the appended mention and its space and nothing else |
| ImageHandling.ImageInput.constructor | src/components/FloatingPromptInput/hooks/useImageHandling.ts:23-25 | the input starts with an empty prompt, no attachments, no embedded images and no drag |
| ImageHandling.ImageInput.SetPrompt | src/components/FloatingPromptInput/hooks/useImageHandling.ts:76-79 | the embedded images are recomputed from the new prompt |
| ImageHandling.ImageInput.AddImage | src/components/FloatingPromptInput/hooks/useImageHandling.ts:250-266 | a non-image or an already embedded image leaves the prompt alone; otherwise its mention is appended |
| ImageHandling.ImageInput.AddPastedImage | src/components/FloatingPromptInput/hooks/useImageHandling.ts:147-200 | a pasted image the back end saved becomes the last attachment; otherwise nothing changes |
| ImageHandling.ImageInput.RemoveImageAttachment | src/components/FloatingPromptInput/hooks/useImageHandling.ts:205-207 | every attachment with the id is dropped and the others keep their order |
| ImageHandling.ImageInput.RemoveEmbeddedImage | src/components/FloatingPromptInput/hooks/useImageHandling.ts:210-236 | an index past the list leaves the prompt alone; otherwise the prompt becomes `WithoutImage` of that image |
| ImageHandling.ImageInput.HandleDragDrop | src/components/FloatingPromptInput/hooks/useImageHandling.ts:92-129 | enter and over set the drag flag and leave and drop clear it; a drop within 200 ms of the last is ignored; otherwise the dropped images not yet embedded are appended, space-separated |
| FloatingPromptInput.FindMode | src/components/FloatingPromptInput/index.tsx:167 | a found mode has the id and comes from the list, and None iff no mode has the id |
| FloatingPromptInput.FindModeIsFirst | src/components/FloatingPromptInput/index.tsx:167 | `find` returns the first mode with the id |
| FloatingPromptInput.EveryModeListed | src/components/FloatingPromptInput/constants.tsx:32-75 | every thinking mode has an entry in `THINKING_MODES` |
| FloatingPromptInput.NoThinkingInstruction | src/components/FloatingPromptInput/index.tsx:167-168 | no entry carries a `phrase`, so no thinking instruction is ever sent (with the modes of src/components/FloatingPromptInput/constants.tsx lines 32-75) |
| FloatingPromptInput.FilePaths | src/components/FloatingPromptInput/index.tsx:159-163 | one file path per attachment, in order |
| FloatingPromptInput.WithMentions | src/components/FloatingPromptInput/index.tsx:155-165 | the text, a separating space unless it is empty or ends with one, then the mentions |
| FloatingPromptInput.FinalPrompt | src/components/FloatingPromptInput/index.tsx:154-166 | the trimmed prompt, followed by the attachments' mentions when there are any |
| FloatingPromptInput.FinalPromptSeparator | src/components/FloatingPromptInput/index.tsx:155-165 | a non-empty trimmed prompt and its mentions are separated by exactly one space |
| FloatingPromptInput.SingleAttachmentMention | src/components/FloatingPromptInput/index.tsx:159-162 | one attachment is mentioned the way an embedded image is |
| FloatingPromptInput.ComposePrompt | src/components/FloatingPromptInput/index.tsx:154-166 | the composition returns exactly `FinalPrompt` |
| FloatingPromptInput.PromptInput.constructor | src/components/FloatingPromptInput/index.tsx:53-57 | the input starts empty, with the default model, the Auto thinking mode and nothing open |
| FloatingPromptInput.PromptInput.HandleSend | src/components/FloatingPromptInput/index.tsx:153-175 | a blank prompt or a disabled input changes nothing; otherwise the final prompt is sent with the selected model and no thinking instruction, and the prompt, attachments and embedded images are cleared |
| FloatingPromptInput.PromptInput.Send | src/components/FloatingPromptInput/index.tsx:171-174 | one call is recorded and the input is cleared |
| FloatingPromptInput.PromptInput.HandleKeyDown | src/components/FloatingPromptInput/index.tsx:198-217 | Escape closes the file picker if open, else the slash picker; Enter without Shift sends when not expanded and no picker is open; the default action is cancelled exactly in those cases |
| AppNavigation.ViewChange | src/App.tsx:199-221 | leaving a streaming session view with an active session only asks for confirmation and remembers the target; otherwise the new view is shown and the old one becomes the previous view |
| AppNavigation.SmartBack | src/App.tsx:226-240 | with more than one history entry the last entry is dropped and the new last entry is shown; otherwise the projects view is shown and the history is kept |
| AppNavigation.SmartBackIntended | src/App.tsx:226-240 | the corrected back: the shown view is the entry removed from the history |
| AppNavigation.Confirm | src/App.tsx:245-251 | the pending view, if any, is shown, and the confirmation closes |
| AppNavigation.Cancel | src/App.tsx:256-259 | the pending view is dropped and the confirmation closes, the view unchanged |
| AppNavigation.ViewChangeKeepsHistory | src/App.tsx:211-217 | the history never gets the same view twice in a row |
| AppNavigation.PopKeepsHistory | src/App.tsx:229-233 | dropping the last entry keeps the history free of consecutive repeats |
| AppNavigation.HandlersKeepHistory | src/App.tsx:199-259 | every handler keeps the history non-empty, starting with projects and free of consecutive repeats |
| AppNavigation.SmartBackSkipsAView | src/App.tsx:211-235 | right after leaving a view that is not the history's last entry, back shows that last entry, not the view just left |
| AppNavigation.SmartBackFromMcp | src/App.tsx:211-235 | projects, then settings, then MCP: back from MCP shows projects, although settings was the previous view |
| AppNavigation.BackUndoesViewChange | src/App.tsx:199-240 | with the corrected back, back right after a view change returns to the view left |
| AppNavigation.ProjectId | src/App.tsx:292 | every character that is not an ASCII letter or digit becomes '-', the length unchanged |
| AppNavigation.ProjectIdIsNormal | src/App.tsx:292 | the id holds only ASCII letters, digits and '-', and normalising it again changes nothing |
| AppNavigation.ProjectIdCollides | src/App.tsx:292 | "/a/b" and "-a.b" get the same id "-a-b" |
| AppNavigation.App.constructor | src/App.tsx:58-77 | the app starts on projects with history [projects], nothing pending and no confirmation |
| AppNavigation.App.HandleViewChange | src/App.tsx:199-221 | the state becomes `ViewChange` of the old state |
| AppNavigation.App.HandleSmartBack | src/App.tsx:226-240 | the state becomes `SmartBack` of the old state and the view shown is returned |
| AppNavigation.App.HandleNavigationConfirm | src/App.tsx:245-251 | the state becomes `Confirm` of the old state |
| AppNavigation.App.HandleNavigationCancel | src/App.tsx:256-259 | the state becomes `Cancel` of the old state |
| Timeline.FindPath | src/components/TimelineNavigator.tsx:97-110 | the search as written always returns an extension of the path it was given |
| Timeline.FirstChildDecides | src/components/TimelineNavigator.tsx:97-110 | the target gives back the path, a leaf gives back the path, and any other node returns its first child's answer whatever it is, because that answer is always longer than the path |
| Timeline.FirstChain | src/components/TimelineNavigator.tsx:102-107 | the chain of first children down `depth` levels has `depth` ids |
| Timeline.FirstChainIsFound | src/components/TimelineNavigator.tsx:97-110 | the search as written finds the target only along the chain of first children |
| Timeline.FindPathIntended | src/components/TimelineNavigator.tsx:97-110 | the corrected search returns an extension of the given path when it finds the target |
| Timeline.FindInChildrenIntended | src/components/TimelineNavigator.tsx:102-107 | the corrected loop tries the children in order and returns an extension of the extended path |
| Timeline.IntendedFindsAncestors | src/components/TimelineNavigator.tsx:97-110 | whatever the corrected search returns are the ids of the target's ancestors, root first |
| Timeline.IntendedFindsPresent | src/components/TimelineNavigator.tsx:97-110 | the corrected search finds every target present in the tree |
| Timeline.FindPathMissesSecondChild | src/components/TimelineNavigator.tsx:97-110 | in the tree R[A[C], B] the search as written returns [R, A] for B, which are not B's ancestors; the corrected search returns [R] |
| Timeline.Toggled | src/components/TimelineNavigator.tsx:214-222 | exactly the given id changes membership |
| Timeline.ToggleTwice | src/components/TimelineNavigator.tsx:214-222 | toggling the same node twice restores the set |
| Timeline.TimelineView.constructor | src/components/TimelineNavigator.tsx:60 | no node starts expanded |
| Timeline.TimelineView.ExpandToCurrent | src/components/TimelineNavigator.tsx:84-88 | with a root and a non-empty current checkpoint the expanded nodes become the ids on the path the search returns; otherwise they stay |
| Timeline.TimelineView.ToggleNodeExpansion | src/components/TimelineNavigator.tsx:214-222 | the expanded set becomes `Toggled` of the old one |
| ToolCallsGroup.ToolCalls | src/components/message/ToolCallsGroup.tsx:53-58 | the calls are exactly the `tool_use` items of an array content, in order; any other content gives none |
| ToolCallsGroup.InitiallyCollapsed | src/components/message/ToolCallsGroup.tsx:47-64 | an explicit `defaultCollapsed` wins; otherwise the group starts collapsed iff it has at least `collapseThreshold` calls |
| ToolCallsGroup.Tally | src/components/message/ToolCallsGroup.tsx:67-84 | the total is the number of calls |
| ToolCallsGroup.TallyAddsUp | src/components/message/ToolCallsGroup.tsx:67-84 | success, error and pending counts add up to the total: any status that is not pending or error counts as success |
| ToolCallsGroup.TallyBadge | src/components/message/ToolCallsGroup.tsx:67-84 | a count is positive iff some call has that status |
| ToolCallsGroup.ComputeStats | src/components/message/ToolCallsGroup.tsx:67-84 | the `forEach` loop yields exactly `Tally`, whose counts add up to the number of calls |
| ToolCallsGroup.SummaryParts | src/components/message/ToolCallsGroup.tsx:94-101 | the distinct tool names in first-seen order: the first three at most, and the number of the others |
| ToolCallsGroup.ShownNames | src/components/message/ToolCallsGroup.tsx:98-100 | one rendered name per distinct name, in order |
| ToolCallsGroup.ToolTypesSummary | src/components/message/ToolCallsGroup.tsx:94-101 | the summary starts with the first names joined by ", " and, when there are more than three, ends with " +" and the number left out |
| ToolCallsGroup.LayoutOf | src/components/message/ToolCallsGroup.tsx:103-118 | no calls render nothing, one call renders alone without collapsing, two or more render as a group |
| ToolCallsGroup.IconOf | src/components/message/ToolCallsGroup.tsx:193-209 | a pending call shows the spinner, an error the alert icon, and any other status the check mark |
| ToolCallsGroup.CollapsedSummary | src/components/message/ToolCallsGroup.tsx:189-222 | the first three calls at most, each with its name and status icon, and a count of the rest exactly when there are more than three |
| ToolCallsGroup.ToolCallsGroupView.constructor | src/components/message/ToolCallsGroup.tsx:53-64 | the group holds the message's calls and starts collapsed as `InitiallyCollapsed` says |
| ToolCallsGroup.ToolCallsGroupView.ToggleCollapse | src/components/message/ToolCallsGroup.tsx:87-91 | the collapsed flag flips and the new value is reported to `onToggle` |
| Seqs.Filter | src/components/SessionList.tsx:93-96 | keeps exactly the elements the predicate accepts, never more than there were |
| Seqs.Count | src/components/EnhancedSessionList.tsx:104 | the number of accepted elements is at most the length |
| Seqs.FilterIsSubsequence | src/components/SessionList.tsx:93-96 | what a filter keeps stays in its original order |
| Seqs.FilterAll | src/components/SessionList.tsx:93-96 | a filter that accepts every element returns the list unchanged |
| Seqs.FilterLength | src/components/EnhancedSessionList.tsx:104 | the filtered list is as long as the count of accepted elements |
| Seqs.CountSplit | src/components/SessionList.tsx:221-224 | what a predicate accepts plus what its negation accepts is the whole length (shown plus hidden sessions) |
| Seqs.CountSame | src/components/message/ToolCallsGroup.tsx:67-84 | predicates that agree on every element count the same number |
| Seqs.Distinct | src/components/message/ToolCallsGroup.tsx:95-96 | `Array.from(new Set(s))`: the same elements, each once |
| Seqs.FirstIndex | src/components/message/ToolCallsGroup.tsx:95-96 | the position where an element first occurs |
| Seqs.DistinctKeepsFirstOrder | src/components/message/ToolCallsGroup.tsx:95-96 | the distinct elements come in the order in which they first occur, as a `Set` iterates |
| Seqs.Take | src/components/RecentSessions.tsx:131 | `slice(0, n)`: the first `n` elements, or all when there are fewer |
| Sorting.InsertBy | src/components/SessionList.tsx:99-115 | inserting adds exactly one element and keeps the rest |
| Sorting.InsertKeepsSorted | src/components/SessionList.tsx:99-115 | inserting into a list ordered by rank keeps it ordered |
| Sorting.InsertWithRank | src/components/SessionList.tsx:99-115 | the inserted element goes in front of every element of its own rank |
| Sorting.SortBy | src/components/SessionList.tsx:99-115 | the sort returns a permutation of its input |
| Sorting.SortBySorts | src/components/SessionList.tsx:99-115 | the result is ordered by rank |
| Sorting.SortByIsStable | src/components/SessionList.tsx:99-115 | elements of equal rank keep their relative order, as `Array.prototype.sort` does |
| Sorting.SortByFacts | src/components/SessionList.tsx:99-115 | a permutation, ordered by rank, with ties in their original order |
| Sorting.PrefixHoldsLowestRanks | src/components/RecentSessions.tsx:124-131 | after sorting, the first `n` elements rank no higher than any element left out |
| Pagination.SliceBound | src/components/EnhancedSessionList.tsx:383 | a negative `slice` bound counts from the end, and every bound is clamped to the length |
| Pagination.Slice | src/components/SessionList.tsx:119-121 | `slice(start, end)` is the elements between the clamped bounds, or nothing when they cross |
| Pagination.TotalPages | src/components/SessionList.tsx:118 | `Math.ceil(n / size)`: enough pages for every item, and no page more than needed |
| Pagination.Page | src/components/SessionList.tsx:118-121 | page `p` holds the items from `(p - 1) * size` up to `p * size`, clamped to the list |
| Pagination.PageOfItem | src/components/SessionList.tsx:118-121 | item `k` is item `k % size` of page `k / size + 1` |
| Pagination.FullPage | src/components/SessionList.tsx:118-121 | every page before the last is full |
| Pagination.EmptyPage | src/components/SessionList.tsx:118-121 | every page after the last is empty |
| Pagination.PagesPartition | src/components/SessionList.tsx:118-121 | every item is on exactly the page its position says, earlier pages are full, the last is not empty and later ones are empty |
| Sessions.Prefix | src/components/EnhancedSessionList.tsx:146 | `substring(0, n)`: a prefix of at most `n` characters, the whole string when it is short enough |
| Sessions.FirstAssistant | src/components/EnhancedSessionList.tsx:140 | `history.find(h => h.type === "assistant")`: the first assistant entry, or none when no entry is one |
| Sessions.FirstTextIsFirst | src/components/EnhancedSessionList.tsx:145 | `find` over the content items: the text of the first "text" item |
| Sessions.Summary | src/components/EnhancedSessionList.tsx:140-148 | at most `limit` characters, and empty when the history has no assistant entry |
| Sessions.FindByIdIsFirst | src/components/SessionList.tsx:192 | `sessions.find(s => s.id === id)`: the first session with that id |
| Sessions.LastPieceOfSplit | src/components/RecentSessions.tsx:165-168 | the last piece of a split on '/' and '\\' is the longest suffix without a separator |
| Sessions.ProjectName | src/components/RecentSessions.tsx:165-168 | the whole path, or a non-empty suffix without a separator that follows the last separator |
| Sessions.ProjectNameCases | src/components/RecentSessions.tsx:165-168 | a path without a separator, or one ending in one, is its own project name |
| Sessions.FirstSessionsLength | src/components/RecentSessions.tsx:87-88 | the nested scan yields at most `perProject` sessions per project |
| Sessions.FirstSessionsMembers | src/components/RecentSessions.tsx:87-88 | a session is yielded iff it is among the first `perProject` of one of the projects |
| Sessions.FirstSessionsStep | src/components/QuickSessionDialog.tsx:125-126 | one more project appends its first sessions at the end |
| Sessions.ActivityKeyAsWritten | src/components/RecentSessions.tsx:125-129 | the last activity in milliseconds when present, else the creation time in seconds |
| Sessions.ActivityKeyMs | src/components/EnhancedSessionList.tsx:209-210 | the corrected date key: the last activity in milliseconds when present, else the creation time times 1000 (the same key RecentSessions.tsx:126-127 means) |
| Sessions.ActivityKeyMsNewestFirst | src/components/SessionList.tsx:100-112 | sorting by the key puts sessions in order of their real latest-activity instant (last activity, else creation), most recent first |
| Sessions.ActivityKeyMixesUnits | src/components/EnhancedSessionList.tsx:209-211 | as written, a session of 2020 with activity ranks above one of 2024 without, which milliseconds throughout reverse |
| SessionList.ValidSessions | src/components/SessionList.tsx:93-96 | the listed sessions are exactly those whose id and first message are both non-blank after trimming, in their original order |
| SessionList.HiddenCount | src/components/SessionList.tsx:221-224 | the hidden count is the number of sessions the filter leaves out, and it and the listed ones add up to all |
| SessionList.SortedSessionsOrder | src/components/SessionList.tsx:99-115 | the sorted list is a permutation of the listed sessions, most recently active first (last message, else first message, else creation time times 1000) |
| SessionList.SortedSessionsKeepTies | src/components/SessionList.tsx:99-115 | sessions equally recent keep the order the back end gave them |
| SessionList.Ids | src/components/SessionList.tsx:179 | the ids of the sessions, one per session, in order |
| SessionList.Without | src/components/SessionList.tsx:165-167 | `Set.delete`: every id but the one removed, still without duplicates; an absent id changes nothing |
| SessionList.ToggledSelection | src/components/SessionList.tsx:164-172 | the toggled id is selected iff it was not, every other id keeps its state, and no id appears twice |
| SessionList.ToggleTwice | src/components/SessionList.tsx:164-172 | toggling the same id twice restores the selection |
| SessionList.SelectAll | src/components/SessionList.tsx:175-182 | a selection of the page's size is cleared; any other becomes exactly the page's ids, without duplicates |
| SessionList.SelectAllComparesSizesOnly | src/components/SessionList.tsx:175-182 | only sizes are compared: one id selected elsewhere is cleared rather than replaced by the one session of the page |
| SessionList.SessionListView.constructor | src/components/SessionList.tsx:82-91 | first page, no dialog, no pending deletion, no selection mode and nothing selected |
| SessionList.SessionListView.SetSessions | src/components/SessionList.tsx:124-126 | new sessions go back to the first page exactly when the number of listed sessions changes; nothing else changes |
| SessionList.SessionListView.SetCurrentPage | src/components/SessionList.tsx:118-121 | only the page changes |
| SessionList.SessionListView.HandleDeleteClick | src/components/SessionList.tsx:129-133 | the clicked session is the one to delete and the dialog opens |
| SessionList.SessionListView.ConfirmDelete | src/components/SessionList.tsx:136-150 | without a session or a callback nothing happens; else the callback receives the session's id and project id, a success closes the dialog, a failure leaves it open, and the busy flag ends cleared |
| SessionList.SessionListView.CancelDelete | src/components/SessionList.tsx:153-156 | the dialog closes and no session is pending |
| SessionList.SessionListView.ToggleSelectionMode | src/components/SessionList.tsx:158-161 | the selection mode flips and the selection empties |
| SessionList.SessionListView.ToggleSessionSelection | src/components/SessionList.tsx:164-172 | the selection becomes `ToggledSelection` of the old one |
| SessionList.SessionListView.SelectAllOnPage | src/components/SessionList.tsx:175-182 | the selection becomes `SelectAll` of the old one and the current page |
| SessionList.SessionListView.HandleBatchDelete | src/components/SessionList.tsx:185-203 | nothing without a selection or a callback; else the ids go with the project of the session holding the first id, no call is made when none holds it, and a success clears the selection and ends the selection mode |
| EnhancedSessionList.TokenSumOfConversation | src/components/EnhancedSessionList.tsx:104-114 | summing the input and output tokens over the filtered messages equals summing them over the conversational entries of the whole history |
| EnhancedSessionList.ComputeStats | src/components/EnhancedSessionList.tsx:104-114 | the `forEach` loop counts the user and assistant entries and adds up their input and output tokens |
| EnhancedSessionList.FormatDuration | src/components/EnhancedSessionList.tsx:129-137 | the duration text always ends in "m" |
| EnhancedSessionList.FormatDurationHours | src/components/EnhancedSessionList.tsx:129-137 | from an hour on, the text is the whole hours and the minutes left over, which are below 60 and bracket the duration to the minute |
| EnhancedSessionList.FormatDurationMinutes | src/components/EnhancedSessionList.tsx:129-137 | under an hour, the text is the whole minutes alone |
| EnhancedSessionList.Duration | src/components/EnhancedSessionList.tsx:123-138 | a duration is shown iff the history has a conversational entry |
| EnhancedSessionList.InfoOf | src/components/EnhancedSessionList.tsx:104-150 | the message count and tokens are those of the user and assistant entries, the summary has at most 200 characters, and the duration is empty iff there is no such entry |
| EnhancedSessionList.Search | src/components/EnhancedSessionList.tsx:178-192 | an empty query keeps every session; otherwise exactly the sessions whose id, first message or loaded summary contains the lower-cased query, in their order |
| EnhancedSessionList.FilteredAndSortedOrder | src/components/EnhancedSessionList.tsx:195-216 | the list is a permutation of what the search keeps, by message count, token count or activity, ascending or descending as chosen |
| EnhancedSessionList.FilteredAndSortedKeepsTies | src/components/EnhancedSessionList.tsx:195-216 | sessions with equal keys keep their original order in either direction |
| EnhancedSessionList.EnhancedSessionListView.constructor | src/components/EnhancedSessionList.tsx:82-87 | first page, no query, by date, descending, no information yet and loading |
| EnhancedSessionList.EnhancedSessionListView.InfoLoaded | src/components/EnhancedSessionList.tsx:168-169 | the loaded information replaces the old and loading ends; the view settings stay |
| EnhancedSessionList.EnhancedSessionListView.SetSearchQuery | src/components/EnhancedSessionList.tsx:313 | a new query returns to the first page, an unchanged one keeps the page (together with lines 228-230) |
| EnhancedSessionList.EnhancedSessionListView.SetSortBy | src/components/EnhancedSessionList.tsx:319 | a new sort key returns to the first page, an unchanged one keeps the page (together with lines 228-230) |
| EnhancedSessionList.EnhancedSessionListView.SetSortOrder | src/components/EnhancedSessionList.tsx:337 | a new sort order returns to the first page, an unchanged one keeps the page (together with lines 228-230) |
| EnhancedSessionList.EnhancedSessionListView.SetCurrentPage | src/components/EnhancedSessionList.tsx:471 | only the page changes (together with lines 222-225) |
| RecentSessions.Extend | src/components/RecentSessions.tsx:93-115 | a loaded session keeps its record, counts its user and assistant entries, takes its last activity from the last entry's `timestamp` or else `receivedAt`, and has a summary of at most 100 characters |
| RecentSessions.Loaded | src/components/RecentSessions.tsx:90-119 | a history that loads extends the session; one that fails adds the session alone |
| RecentSessions.ScannedBound | src/components/RecentSessions.tsx:87-88 | the scan visits at most 50 sessions: exactly the first five of each of the first ten projects |
| RecentSessions.LoadAll | src/components/RecentSessions.tsx:87-121 | one entry per visited session, in scan order |
| RecentSessions.LoadAllAppend | src/components/RecentSessions.tsx:116-119 | each visited session appends its entry at the end |
| RecentSessions.LoadAllConcat | src/components/RecentSessions.tsx:87-121 | loading two runs of sessions one after the other is loading their concatenation |
| RecentSessions.LoadRecentSessions | src/components/RecentSessions.tsx:80-132 | the nested loops followed by the sort and the slice give exactly `RecentFrom`: the twenty newest scanned entries |
| RecentSessions.PushSessions | src/components/RecentSessions.tsx:88-119 | the inner loop appends exactly one entry per session of the project, in order: the extended entry when the history loads, else the plain session |
| RecentSessions.RecentOrder | src/components/RecentSessions.tsx:124-131 | at most twenty entries, drawn from the scanned ones, all of them when there are no more than twenty, newest first |
| RecentSessions.RecentAreNewest | src/components/RecentSessions.tsx:124-131 | no dropped entry is newer than a kept one |
| RecentSessions.RecentAreScanned | src/components/RecentSessions.tsx:131 | every kept entry is for one of the first five sessions of one of the first ten projects (together with lines 87-88) |
| RecentSessions.Search | src/components/RecentSessions.tsx:65-77 | an empty query keeps every session; otherwise exactly those whose first message, project path or summary contains the lower-cased query, in order |
| RecentSessions.Displayed | src/components/RecentSessions.tsx:170 | all the sessions when expanded, else the first six at most |
| RecentSessions.CollapsedHidesOnlyPastSix | src/components/RecentSessions.tsx:326-336 | the collapsed list is the whole list iff it has at most six sessions, and otherwise its first six (together with line 170) |
| RecentSessions.ToggledFavorites | src/components/RecentSessions.tsx:147-155 | the toggled id is a favourite iff it was not, and every other id keeps its state |
| RecentSessions.ToggleFavoriteTwice | src/components/RecentSessions.tsx:147-155 | toggling the same id twice restores the favourites |
| RecentSessions.MarkFavorites | src/components/RecentSessions.tsx:158-161 | every session is marked with whether its id is a favourite, and nothing else changes |
| RecentSessions.ToggleMarksOneSession | src/components/RecentSessions.tsx:147-161 | after a toggle, the mark changes exactly on the sessions with the toggled id |
| RecentSessions.RecentSessionsView.constructor | src/components/RecentSessions.tsx:51-62 | no sessions, no query, loading, collapsed, no favourites |
| RecentSessions.RecentSessionsView.LoadRecent | src/components/RecentSessions.tsx:80-137 | a successful listing replaces the sessions by `RecentFrom`; a failure keeps them; loading ends either way |
| RecentSessions.RecentSessionsView.LoadFavorites | src/components/RecentSessions.tsx:139-145 | stored favourites replace the set; without any the set stays |
| RecentSessions.RecentSessionsView.ToggleFavorite | src/components/RecentSessions.tsx:147-162 | the favourites toggle, are stored, and every session's mark is recomputed from them |
| RecentSessions.RecentSessionsView.SetSearchQuery | src/components/RecentSessions.tsx:54-77 | only the query changes; the filtered list follows from it |
| RecentSessions.RecentSessionsView.ToggleShowAll | src/components/RecentSessions.tsx:330 | only the expanded flag flips |
| QuickSessionDialog.LoadRecentData | src/components/QuickSessionDialog.tsx:114-136 | the loop and slices give exactly the ten newest projects and the first ten of the sessions collected from the first three of each of the first five |
| QuickSessionDialog.RecentProjectsOrder | src/components/QuickSessionDialog.tsx:117-121 | at most ten projects, drawn from the listed ones, all of them when there are no more than ten, newest first |
| QuickSessionDialog.RecentProjectsAreNewest | src/components/QuickSessionDialog.tsx:117-121 | no project left out is newer than one kept |
| QuickSessionDialog.RecentSessionsScanned | src/components/QuickSessionDialog.tsx:124-130 | at most ten sessions, each among the first three of one of the first five kept projects |
| QuickSessionDialog.FilteredProjects | src/components/QuickSessionDialog.tsx:183-192 | exactly the kept projects whose lower-cased name contains the lower-cased query, in order |
| QuickSessionDialog.EmptyQueryKeepsAll | src/components/QuickSessionDialog.tsx:189-192 | an empty query keeps every project |
| QuickSessionDialog.FavoritesFirst | src/components/QuickSessionDialog.tsx:195-201 | the same projects, no favourite after a non-favourite, and favourites and others each in their previous order |
| QuickSessionDialog.HandlerCallee | src/components/QuickSessionDialog.tsx:86 | inside the component, `open` denotes the destructured boolean prop |
| QuickSessionDialog.CallOpen | src/components/QuickSessionDialog.tsx:158-162 | calling the prop throws; calling the picker gives its answer |
| QuickSessionDialog.SelectPathAsWrittenKeepsPath | src/components/QuickSessionDialog.tsx:156-170 | as written, the path after selecting a directory is the path before, whatever the picker would answer |
| QuickSessionDialog.ShadowedOpenLosesChoice | src/components/QuickSessionDialog.tsx:156-170 | a concrete choice "/work/app" is lost as written and taken with the picker bound |
| QuickSessionDialog.PickerPathIntended | src/components/QuickSessionDialog.tsx:164-166 | with the picker bound, a truthy answer becomes the path and a cancelled one keeps it |
| QuickSessionDialog.QuickSessionDialogView.constructor | src/components/QuickSessionDialog.tsx:90-97 | no path, no query, no projects or sessions, no favourites, the blank template, not loading, no calls made |
| QuickSessionDialog.QuickSessionDialogView.Opened | src/components/QuickSessionDialog.tsx:101-143 | a successful listing sets the projects and sessions as `LoadRecentData` computes them, a failure keeps them; stored favourites are loaded; loading ends |
| QuickSessionDialog.QuickSessionDialogView.ToggleFavorite | src/components/QuickSessionDialog.tsx:145-154 | the project path's favourite state flips and the set is stored (together with lines 304-307) |
| QuickSessionDialog.QuickSessionDialogView.SelectPath | src/components/QuickSessionDialog.tsx:156-170 | as written: `open` is the boolean prop (line 86) shadowing the import (line 33), so the call throws, the error is caught and the path and every other field stay |
| QuickSessionDialog.QuickSessionDialogView.SelectPathIntended | src/components/QuickSessionDialog.tsx:156-170 | with the picker bound to `open`: a chosen directory becomes the path; a cancelled choice keeps it; nothing else changes |
| QuickSessionDialog.QuickSessionDialogView.SetProjectPath | src/components/QuickSessionDialog.tsx:278 | only the path changes (together with line 236) |
| QuickSessionDialog.QuickSessionDialogView.SetSearchQuery | src/components/QuickSessionDialog.tsx:260 | only the query changes |
| QuickSessionDialog.QuickSessionDialogView.SelectTemplate | src/components/QuickSessionDialog.tsx:50-79 | one of the templates is selected and nothing else changes (together with line 335) |
| QuickSessionDialog.QuickSessionDialogView.CreateSession | src/components/QuickSessionDialog.tsx:172-181 | without a path nothing happens; else the parent is asked to create the session with the path and template and to close, and both are reset |
| QuickSessionDialog.QuickSessionDialogView.OpenSession | src/components/QuickSessionDialog.tsx:364-367 | the parent opens the session and is asked to close the dialog |
| Text.TrimStart | src/components/SessionList.tsx:94-95 | the start-trimmed string is a suffix that begins with a non-space, and only spaces were dropped |
| Text.TrimEnd | src-tauri/src/commands/simple_git.rs:101 | the end-trimmed string is a prefix that ends with a non-space, and only spaces were dropped |
| Text.TrimEmptyIff | src/components/SessionList.tsx:94-95 | `trim() !== ''` fails exactly for an all-space string |
| Text.TrimKeepsNonSpace | src-tauri/src/commands/prompt_tracker.rs:149 | a string with a non-space character does not trim to empty |
| Text.TrimIdempotent | src/components/SessionList.tsx:94-95 | trimming twice is trimming once |
| Text.ToLower | src/components/EnhancedSessionList.tsx:183-189 | `toLowerCase` keeps the length and lower-cases each character on its own |
| Text.Split | src/components/RecentSessions.tsx:166 | a split gives at least one piece and no piece holds a separator |
| Text.SplitJoin | src/components/RecentSessions.tsx:166 | joining the pieces of a split on one character with that character gives the string back |
| Text.Lines | src-tauri/src/commands/prompt_tracker.rs:94 | `lines()` gives pieces without a newline |
| Text.JoinLines | src-tauri/src/commands/prompt_tracker.rs:237-242 | the rewritten content is empty exactly when no line is kept |
| Text.LinesJoinLines | src-tauri/src/commands/prompt_tracker.rs:237-242 | reading the rewritten transcript back with `lines()` gives the kept lines (together with line 94) |
| Text.NatToString | src/components/EnhancedSessionList.tsx:133-135 | a number prints as decimal digits without a leading zero |
| Text.NatToStringValue | src/components/EnhancedSessionList.tsx:133-135 | the printed digits read back as the number |
| Text.NatToStringInjective | src/components/EnhancedSessionList.tsx:133-135 | different numbers print differently |
| Text.LexLessIrreflexive | src-tauri/src/commands/usage.rs:255 | no timestamp is below itself under Rust's `<` on strings |
| Text.LexLessTransitive | src-tauri/src/commands/usage.rs:255 | Rust's `<` on strings is transitive |
| Text.LexLessTotal | src-tauri/src/commands/usage.rs:255 | of two different strings, one is below the other |
| Text.LexLessAsymmetric | src-tauri/src/commands/usage.rs:255 | two strings are never each below the other |
| SimpleGit.NewCommitId | src-tauri/src/commands/simple_git.rs:64 | the id given to a new commit looks like `rev-parse` output: a non-empty run of hex digits |
| SimpleGit.Repo.constructor | src-tauri/src/commands/simple_git.rs:9-11 | a repository with the given git behaviour, whose HEAD, when it has one, is one of its commits, all of them valid ids, with tracked and untracked changes given separately and an empty stash |
| SimpleGit.Repo.MakeCommit | src-tauri/src/commands/simple_git.rs:62-80 | a new commit becomes HEAD and joins the commits |
| PromptTracker.ProjectDir.constructor | src-tauri/src/commands/prompt_tracker.rs:28-36 | the directory holds the given transcripts, agent files and prompt files, with the given outcomes of the transcript and prompts-file writes and the given unreadable and undeletable files |
| SessionView.SessionScreen.constructor | src/components/ClaudeCodeSession.tsx:75-77 | the screen holds its messages, with no error, an empty input and no calls made |
| DisplayableMessages.DisplayablePrefix | src/hooks/useDisplayableMessages.ts:27-28 | the kept messages among the first n are at most n |
| MessageFilter.BucketsCountRejected | src/lib/messageFilter.ts:253-282 | when the display matches the rules, the four reason buckets count exactly the rejected messages |
| Timeline.FindInChildren | src/components/TimelineNavigator.tsx:102-108 | the loop over the children always returns an extension of the path it was given |
| Extensions.ScopedConcat | src-tauri/src/commands/extensions.rs:67-88 | the user list then the project list splits back into the two lists, and never puts a user entry after a project one |

## Left out

- Rendering, animation, layout and the DOM. The components are modelled by their state and handlers only; focus timers (`setTimeout`) and the "new"/"recent" tab of the quick-session dialog are not modelled.
- The filesystem, the clock, time zones and randomness.
  - Directory walks (WalkDir, `read_dir`) are a parameter: a sequence of entries or a map of files.
  - Date parsing (`new Date(t).getTime()`) is a parameter `dateMs`. The local date of a timestamp is a parameter `localDate`.
  - `Utc::now` is a parameter. The random salt is a parameter of the salt operation.
- JSON parsing (serde_json and `JSON.parse`) is a parameter `parse` from a line to its parsed form. A history that fails to load is modelled as `None`.
- Local storage is a field holding the stored value, already parsed. A favourites set is stored as a set, so the order of `Array.from` is not modelled.
- Lower-casing (`toLowerCase`, `to_lowercase`) is ASCII only.
- Floating point: every cost, `calculate_cost` and the cost sums, `estimatedCost`, `formatCost` and `calculateMessageCost`.
- The cost orderings: the sort of `by_model` and `by_project` by cost (usage.rs:452, 458) and of `by_session` by cost (usage.rs:703-705).
- Usage.CollectUsageEntries: does not sort the entries by timestamp (usage.rs:303); the order given is the order of the files and of their lines.
- Usage.AggregateUsage: the per-date table is a map, so the newest-first order of `by_date` (usage.rs:455) is not modelled.
- Usage.ProcessingOrderFacts: states the order of distinct timestamps and that the order is a permutation; the order of files with equal timestamps, which the stable sort keeps as listed, is not stated.
- Token counts are unbounded integers; the `u64` sums of usage.rs and the JavaScript number sums do not overflow in the model.
- Text positions are counted in Unicode scalar values, while JavaScript counts UTF-16 code units. A character outside the Basic Multilingual Plane is one position here and two in JavaScript. This affects RevertPicker.TruncateText and Sessions.Prefix (`substring`, `slice`), the cursor positions of SlashCommands.SlashPicker, and AppNavigation.ProjectId, where such a character becomes two `-` in JavaScript and one here.
- EnhancedSessionList.FormatDuration: the duration is an integer number of milliseconds, so the text "NaNm" for an unparsable date is not modelled.
- A failing `read_dir` of the project directory, which skips the agent-file cleanup without an error (prompt_tracker.rs:263), is not modelled; the directory is always listed.
- The git repository is modelled by whole-repository flags: git can run, writing commands succeed, the stash succeeds, tracked files are modified, untracked files exist. Per-file changes, conflicts and a target that is not a commit id are not modelled.
- Usage.GetSessionStats: states the per-project table, not its order by cost, which is a float sort.
- A `null` element of an array-valued `content` is not modelled: an element is a string or an object. Non-string, non-array content (an object, a number, a boolean or `null`) is modelled only by its truthiness.
- `Array.prototype.sort` with an inconsistent comparator: a `NaN` key (an unparsable date) is not modelled; keys are integers.
- Network calls and their responses: `callEnhancementAPI`, `callOpenAIFormat`, `callGeminiFormat`, `testAPIConnection`, the `api.*` calls of the views (their results are parameters), and the `PRESET_PROVIDERS` constants.
- The batched `Promise.all` loading of EnhancedSessionList.tsx:94-166: the result is modelled as the map it builds.
- Subprocess mechanics in simple_git.rs: command building, Windows creation flags and UTF-8 decoding. Only the effect on the repository state is modelled. A commit id is the model's own decimal id, not a hash.
- `git_commit_changes`, called by `mark_prompt_completed`, is not part of this model beyond its effect: a new commit when there are changes.
- `read_subagent`, `read_skill` and the `open_*_directory` commands of extensions.rs read or open files and are left out.
- `handlePaste` reads the pasted blob with a FileReader; the model takes the saved file path as an `Option`.
- Pricing.ReadFormatDuration: durations are whole seconds, so the `Math.round` of a fractional number of seconds is not modelled.
- ToolCallsGroup.CollapsedSummary: the `input.path` detail shown next to a call's name and the `getResultById` lookup are not modelled; the status is a parameter of each call.
- ToolCallsGroup.ToolCallsGroupView.ToggleCollapse: the `onToggle` callback is recorded as a list of the values it received.
- The session templates' names, descriptions and initial prompts; only their ids and whether they carry a prompt are modelled.
- RecentSessions.MarkFavorites: the `is_favorite` mark is computed and kept, but no part of the rendering that reads it is modelled.
- RecentSessions.Extend: states a bound on the summary's length, not its text; the text rule is `Sessions.Summary`.
- Pagination.Page: states the page only for page numbers from 1 on. Below 1 it follows `slice` with negative bounds, but the pagination control never produces such a number.
- The revert picker's three modes are modelled as the picker's state; the back-end command takes no mode and always performs the combined revert.

## Findings

| source | as written | input that shows it | evidently intended | confidence | as-written member | corrected member |
|---|---|---|---|---|---|---|
| src/components/TimelineNavigator.tsx:97-110 | `childPath.length > path.length` always holds, because the child's search starts from `path` plus the node's id, so the first child's result is returned whether or not it found the target | root R with children A (child C) and B; target B gives ["R", "A"] | the path of ancestors of B, ["R"] | not executed | Timeline.FindPathMissesSecondChild | Timeline.FindPathIntended |
| src/App.tsx:226-240 | the history holds the views that were left, yet smart back pops one entry and then goes to the new last one, skipping a view | projects, then settings, then MCP; back from MCP goes to projects | back from MCP goes to settings | not executed | AppNavigation.SmartBackFromMcp | AppNavigation.SmartBackIntended |
| src/components/EnhancedSessionList.tsx:209-211 | the date key is the last activity in milliseconds, but the fallback is `created_at` in seconds | a session of 2020 with activity against one of 2024 without: the 2020 session ranks as newer | `created_at * 1000`, as SessionList.tsx:105 does | not executed | Sessions.ActivityKeyMixesUnits | Sessions.ActivityKeyMsNewestFirst |
| src/components/RecentSessions.tsx:125-129 | the same mix of milliseconds and seconds in the recent-sessions sort | the same two sessions | `created_at * 1000`, as line 304 of the same file does for display | not executed | Sessions.ActivityKeyMixesUnits | Sessions.ActivityKeyMsNewestFirst |
| src/components/QuickSessionDialog.tsx:156-170 | the destructured prop `open: boolean` (line 86) shadows `open` imported from the dialog plugin (line 33), so `await open({...})` calls a boolean, throws a TypeError, and the catch only logs it | clicking the folder button while the dialog is shown and choosing "/work/app": the path stays "" | the directory picker opens and the chosen directory becomes the path | not executed | QuickSessionDialog.ShadowedOpenLosesChoice | QuickSessionDialog.PickerPathIntended |
