# sonder chat client core, modelled in Dafny

sonder is a terminal chat client. The user types into a multiline input
box. That box has its own key bindings: word and line deletion, arrows,
Home/End, and the backslash-Enter newline chord. It also supports pastes
and slash-command highlighting. A submitted message starts a turn. The
user message and an empty assistant message are added to the chat store.
The model backend streams text into the assistant message and may ask for
tool calls. Those calls are run through a tool registry (`search_online`,
`plan`), and their results go back to the backend, round after round,
until it stops asking. The user can cancel the turn with Escape. An
app-level keyboard layer sits in front of the input: it handles panels,
slash-command and context menus (searched through a prefix trie), mode and
model cycling, and the double Ctrl+C exit. Assistant messages are drawn by
a small markdown renderer and carry a thumbs widget for feedback. A
separate store keeps the state of the game platform: the user, machines,
the hint chat and PvP matches.

The project has one Dafny module per source file of that core:

- `text_navigation.dfy`: the cursor walks.
- `text_editing.dfy`: insertion, deletion, tab expansion and the rendered column.
- `input_keyboard.dfy`: the input key handler, one action per key.
- `multiline_input.dfy`: what the two input components add, mainly pastes.
- `input_store.dfy`: the store for the input.
- `chat_types.dfy`: the message values.
- `chat_store.dfy`: the store for the chat.
- `streaming.dfy`: the abort controller and token count.
- `tool_executor.dfy` and `tool_registry.dfy`: the tool layer.
- `search_online.dfy` and `plan_write.dfy`: the two tools.
- `plan_store.dfy`: the plan items.
- `plan_agent.dfy`, `agent_registry.dfy` and `agent_executor.dfy`: the plan sub-agent.
- `smart_shortcut.dfy`: shortcut suggestions.
- `chat_handler.dfy`: the conversation turn.
- `app.dfy`: the top-level app.
- `app_constants.dfy` and `app_keyboard.dfy`: the app keyboard layer.
- `trie.dfy`: the prefix trie.
- `markdown.dfy`: the markdown renderer.
- `feedback_indicator.dfy`: the feedback widget.
- `platform_store.dfy`: the platform store.
- `common.dfy` and `json.dfy`: shared helpers. They hold JavaScript string
  operations with their exact semantics and the JSON values that tool and
  agent parameters arrive as.

The shape of each module follows its source:

- Stores and hooks that update fields in place are classes. Their methods
  carry `modifies` clauses and state their whole new state.
- Loops stay loops. Each one is proved against a function that specifies it.
- Pure decision code is functions.
- Lemmas state what each operation promises: round trips, clamping,
  first-match patching, "nothing else changes", and the number of requests
  a turn makes.

## Model

| member | source | states |
|---|---|---|
| TextNavigation.Start | cli/src/utils/text-navigation.ts:6 | the cursor clamped into [0, length] |
| TextNavigation.ScanToLineStart | cli/src/utils/text-navigation.ts:7-9 | the backward scan stops at 0 or just after a newline, and crosses no newline |
| TextNavigation.ScanToLineEnd | cli/src/utils/text-navigation.ts:15-17 | the forward scan stops at the end or on a newline, and crosses no newline |
| TextNavigation.SkipSpaceBack | cli/src/utils/text-navigation.ts:24-26 | every character skipped is white space and the one before the stop is not |
| TextNavigation.SkipWordBack | cli/src/utils/text-navigation.ts:28-30 | every character skipped is non-space and the one before the stop is white space (or the stop is 0) |
| TextNavigation.SkipWordForward | cli/src/utils/text-navigation.ts:37-39 | every character skipped is non-space and the stop is at the end or on white space |
| TextNavigation.SkipSpaceForward | cli/src/utils/text-navigation.ts:41-43 | every character skipped is white space and the stop is at the end or on a non-space |
| TextNavigation.FindLineStart | cli/src/utils/text-navigation.ts:5-11 | the loop returns the start of the cursor's line: at or before the clamped cursor, at 0 or after a newline, no newline in between |
| TextNavigation.FindLineEnd | cli/src/utils/text-navigation.ts:13-19 | the loop returns the end of the cursor's line: at or after the clamped cursor, at the end or on a newline, no newline in between |
| TextNavigation.FindPreviousWordBoundary | cli/src/utils/text-navigation.ts:21-32 | the two loops return a position at or before the cursor that is 0 or follows white space |
| TextNavigation.FindNextWordBoundary | cli/src/utils/text-navigation.ts:34-45 | the two loops return a position at or after the cursor that is the end or on a non-space |
| TextNavigation.LineStart | cli/src/utils/text-navigation.ts:5-11 | where the line-start search stops; FindLineStart is proved to return it, LineStartIdempotent that it is a fixpoint and ClampedCursorEquivalent that an out-of-range cursor is clamped first |
| TextNavigation.LineEnd | cli/src/utils/text-navigation.ts:13-19 | where the line-end search stops; FindLineEnd is proved to return it, LineEndIdempotent that it is a fixpoint and ClampedCursorEquivalent that an out-of-range cursor is clamped first |
| TextNavigation.PreviousWordBoundary | cli/src/utils/text-navigation.ts:21-32 | the white space, then the word, before the cursor skipped; FindPreviousWordBoundary returns it and PreviousWordBoundaryShape proves it is at or before the cursor, at 0 or after white space |
| TextNavigation.NextWordBoundary | cli/src/utils/text-navigation.ts:34-45 | the rest of the word, then the white space, after the cursor skipped; FindNextWordBoundary returns it and NextWordBoundaryShape proves it is at or after the cursor, at the end or on a non-space |
| TextNavigation.LineStartIdempotent | cli/src/utils/text-navigation.ts:5-11 | jumping to the line start twice is jumping once |
| TextNavigation.LineEndIdempotent | cli/src/utils/text-navigation.ts:13-19 | jumping to the line end twice is jumping once |
| TextNavigation.ClampedCursorEquivalent | cli/src/utils/text-navigation.ts:6-35 | an out-of-range cursor behaves as the clamped one in all four searches |
| TextNavigation.PreviousWordBoundaryShape | cli/src/utils/text-navigation.ts:21-32 | the walk skips only white space, then only word characters, and stops after white space or at 0 |
| TextNavigation.NextWordBoundaryShape | cli/src/utils/text-navigation.ts:34-45 | the walk skips only word characters, then only white space, and stops on a word character or at the end |
| TextNavigation.EmptyTextAllZero | cli/src/utils/text-navigation.ts:5-45 | on an empty text every search returns 0 whatever the cursor |
| TextEditing.ControlCharClass | cli/src/utils/text-editing.ts:5 | the control-character class is exactly U+0000-0008, U+000B-000C, U+000E-001F and U+007F; tab, newline and carriage return are outside it |
| TextEditing.InsertText | cli/src/utils/text-editing.ts:12-22 | for an in-range cursor the insertion appears at the cursor, the text around it is kept, and the cursor moves past it |
| TextEditing.DeleteRange | cli/src/utils/text-editing.ts:24-34 | for an in-range span exactly text[start..end) disappears, both sides are kept, and the cursor goes to start |
| TextEditing.ExpandTabs | cli/src/utils/text-editing.ts:36-38 | the result has no tab and grows by tabWidth - 1 per tab; a text without a tab is unchanged and a lone tab becomes tabWidth spaces (with ExpandTabsAppend this fixes every result) |
| TextEditing.ExpandTabsAppend | cli/src/utils/text-editing.ts:36-38 | tab expansion distributes over concatenation |
| TextEditing.CalculateRenderPosition | cli/src/utils/text-editing.ts:40-50 | the loop sums tabWidth per tab and 1 per other code unit before the cursor |
| TextEditing.RenderColumn | cli/src/utils/text-editing.ts:40-50 | the width of the tab-expanded text before the clamped cursor; CalculateRenderPosition returns it, RenderColumnWithoutTabs proves it is the clamped cursor when there is no tab and RenderColumnMonotone that it never decreases |
| TextEditing.RenderColumnWithoutTabs | cli/src/utils/text-editing.ts:40-50 | in text without tabs the render column is the clamped cursor |
| TextEditing.RenderColumnMonotone | cli/src/utils/text-editing.ts:40-50 | the render column never decreases as the cursor moves right, and is constant past the end |
| InputStore.ClampInput | cli/src/state/input-store.ts:23-50 | the stored cursor lies in [0, length of the text]; an in-range value is stored unchanged, a negative cursor becomes 0 and one past the end becomes the length |
| InputStore.ClampInputIdempotent | cli/src/state/input-store.ts:23-50 | clamping a clamped value changes nothing |
| InputStore.InputStore.constructor | cli/src/state/input-store.ts:26-32 | the store starts empty, cursor 0, focused, focus support off |
| InputStore.InputStore.SetInputValue | cli/src/state/input-store.ts:38-51 | a value or an updater of the current value is stored with its cursor clamped; the focus flags are kept |
| InputStore.InputStore.SetInputFocused | cli/src/state/input-store.ts:53-56 | only the focus flag changes |
| InputStore.InputStore.SetIsFocusSupported | cli/src/state/input-store.ts:58-61 | only the focus-support flag changes |
| InputStore.InputStore.Reset | cli/src/state/input-store.ts:63-69 | the text, cursor and navigation flag are emptied and the input is focused; focus support is kept |
| PlanStore.ParseStatus | cli/src/tools/plan-write.ts:8 | exactly the three status names are accepted, and each parses to the status written that way |
| PlanStore.ParseStatusName | cli/src/state/plan-store.ts:4 | every status survives being written out and read back |
| PlanStore.CountCompleted | cli/src/tools/plan-write.ts:39 | the completed count is at most the number of items |
| PlanStore.AllCompletedIff | cli/src/tools/plan-write.ts:39-40 | the completed count equals the length exactly when no item is unfinished |
| PlanStore.PlanStore.constructor | cli/src/state/plan-store.ts:23-25 | the store starts with no items |
| PlanStore.PlanStore.SetItems | cli/src/state/plan-store.ts:31-34 | the items are replaced wholesale |
| PlanStore.PlanStore.Clear | cli/src/state/plan-store.ts:36-39 | the items become empty |
| PlanWrite.ParseItem | cli/src/tools/plan-write.ts:5-9 | an accepted item is an object whose `id` and `content` are those strings and whose `status` is the item's status name |
| PlanWrite.ParseItems | cli/src/tools/plan-write.ts:12 | the array parses exactly when every element does, position by position; one bad element rejects it |
| PlanWrite.ParseParams | cli/src/tools/plan-write.ts:11-13 | accepted parameters hold an `items` array of at most eight items, each parsed as above |
| PlanWrite.ParseEncodeItems | cli/src/tools/plan-write.ts:5-9 | every item list written out as JSON parses back to itself |
| PlanWrite.ParseEncodeParams | cli/src/tools/plan-write.ts:11-13 | every plan of at most eight items is accepted by the schema unchanged |
| PlanWrite.TooManyRejected | cli/src/tools/plan-write.ts:12 | an array of more than eight items is always rejected |
| PlanWrite.Outcome | cli/src/tools/plan-write.ts:19-56 | the tool always succeeds; an empty list clears with "Plan cleared", an all-completed list clears with "Plan completed", otherwise the items are stored with the "Plan: c/n done" summary and the "Plan updated. n items." full result, so the stored plan is empty or has an unfinished item |
| PlanWrite.ProgressSummary | cli/src/tools/plan-write.ts:53 | the "Plan: c/n done" text, c the completed count and n the item count; Outcome and PlanAgent.Settle state that every stored, unfinished plan is reported with it |
| PlanWrite.Execute | cli/src/tools/plan-write.ts:19-56 | the method leaves the store and returns the result that `Outcome` gives |
| PlanAgent.ParseParams | cli/src/agents/plan-agent.ts:25-32 | accepted parameters have a string `task` and, when `currentPlan` is present, an array of well-formed items |
| PlanAgent.UserPrompt | cli/src/agents/plan-agent.ts:48-53 | the prompt starts with the quoted task, and is just that when there is no current plan or it is empty |
| PlanAgent.SanitiseItem | cli/src/agents/plan-agent.ts:78-84 | a null element throws; otherwise a falsy id becomes the 1-based position, a string id is kept, the content is the first min(50, length) code units of `String(content)`, and an unknown status becomes pending |
| PlanAgent.KnownStatus | cli/src/agents/plan-agent.ts:81-83 | a status is recognised only when the field is one of the three status strings |
| PlanAgent.SanitiseFrom | cli/src/agents/plan-agent.ts:78-84 | the map keeps the length and sanitises position by position, and fails exactly when some element is null |
| PlanAgent.Sanitise | cli/src/agents/plan-agent.ts:73-84 | the chain throws exactly when the value is not an array or one of its first eight elements is null; otherwise item k is `SanitiseItem` of element k, for the first eight elements in order |
| PlanAgent.Settle | cli/src/agents/plan-agent.ts:89-108 | always a success whose data is the stored plan; a non-empty all-completed list clears with "Plan completed", and an empty or unfinished list is stored with the "Plan: c/n done" summary, so the stored plan is empty or has an unfinished item |
| PlanAgent.SanitiseWellFormed | cli/src/agents/plan-agent.ts:78-84 | an item with a non-empty id and short content comes through sanitising unchanged |
| PlanAgent.SanitiseEncoded | cli/src/agents/plan-agent.ts:73-84 | a list of at most eight well-formed items, written out as JSON, is sanitised back to itself |
| PlanAgent.EncodedFrom | cli/src/agents/plan-agent.ts:78-84 | the same from any position on |
| PlanAgent.Interpret | cli/src/agents/plan-agent.ts:63-115 | a failed generation leaves the plan and reports the generation error; a parse that fails, or a parsed value the sanitising chain throws on, leaves the plan and gives "Failed to parse plan"; otherwise the result is `Settle` of the sanitised items, so an empty or unfinished plan of at most eight short items is stored and returned as the data |
| PlanAgent.Outcome | cli/src/agents/plan-agent.ts:46-116 | without an API key the agent reports "Failed to generate plan" and leaves the plan as it was |
| PlanAgent.BuildUserPrompt | cli/src/agents/plan-agent.ts:48-53 | the method builds the prompt `UserPrompt` describes |
| PlanAgent.Apply | cli/src/agents/plan-agent.ts:63-115 | the method leaves the store and returns the result that `Interpret` gives |
| PlanAgent.Execute | cli/src/agents/plan-agent.ts:46-116 | the method leaves the store and returns the result that `Outcome` gives |
| AgentExecutor.PromptParts | cli/src/services/agent-executor.ts:68-88 | the parts are the context section when the context is non-empty, then the intent section when the intent is truthy, then the task section, in that order |
| AgentExecutor.BuildAgentPrompt | cli/src/services/agent-executor.ts:68-90 | the method joins the parts with newlines |
| AgentExecutor.PromptEndsWithTask | cli/src/services/agent-executor.ts:86-89 | every prompt ends with "## Task", a newline and the user prompt |
| AgentExecutor.PromptBareTask | cli/src/services/agent-executor.ts:68-90 | with no context and no intent the prompt is the task section alone |
| AgentExecutor.PromptStartsWithContext | cli/src/services/agent-executor.ts:72-89 | with a context the prompt starts with the context heading, the context and a blank line |
| AgentExecutor.Run | cli/src/services/agent-executor.ts:25-63 | without a key the call fails with "OPENROUTER_API_KEY not set"; it succeeds exactly when the generation succeeds, with the trimmed text and no error; a thrown message becomes the error and the text is empty |
| AgentExecutor.ExecuteAgentLLM | cli/src/services/agent-executor.ts:25-63 | the method returns what `Run` gives |
| AgentRegistry.GetAgentNames | cli/src/agents/registry.ts:61-63 | the plan agent is the only one registered |
| AgentRegistry.GetAgentDescriptions | cli/src/agents/registry.ts:68-72 | the descriptions are keyed by exactly the registered names, the plan agent's being its description |
| AgentRegistry.Outcome | cli/src/agents/registry.ts:32-56 | an unknown name gives "Unknown agent: name", parameters the schema rejects give "Invalid parameters", otherwise the agent runs on the parsed parameters; a failure leaves the plan as it was |
| AgentRegistry.ExecuteAgent | cli/src/agents/registry.ts:32-56 | the method leaves the store and returns the result that `Outcome` gives |
| ToolRegistry.GetToolNames | cli/src/tools/registry.ts:72-74 | the registered tools are `search_online` then `plan` |
| ToolRegistry.Outcome | cli/src/tools/registry.ts:42-67 | an unknown name gives "Unknown tool"; parameters the tool's schema rejects give "Invalid parameters" with the validation message; otherwise the tool runs on the parsed parameters; a search never touches the plan, a failure leaves it as it was, and the plan left is empty, unchanged or has an unfinished item |
| ToolRegistry.ExecuteTool | cli/src/tools/registry.ts:42-67 | the method leaves the plan store and returns the result that `Outcome` gives |
| ToolExecutor.ToolId | cli/src/hooks/use-tool-executor.ts:34-49 | the record id is "tool-" followed by the request id |
| ToolExecutor.ToolIdInjective | cli/src/hooks/use-tool-executor.ts:34-49 | different request ids give different record ids |
| ToolExecutor.Registration | cli/src/hooks/use-tool-executor.ts:35-41 | the registered record carries the derived id, the tool name, the arguments, the message id and the executing status |
| ToolExecutor.Finish | cli/src/hooks/use-tool-executor.ts:52-56 | the record is complete exactly when the tool succeeded, in error otherwise, with the result's summary and full text |
| ToolExecutor.FindToolCall | cli/src/hooks/use-tool-executor.ts:8 | the index found is the first record with the id; none when no record has it |
| ToolExecutor.PatchToolCall | cli/src/hooks/use-tool-executor.ts:52-56 | the first record with the id is patched, every other record is kept, an unknown id changes nothing |
| ToolExecutor.PatchRegistered | cli/src/hooks/use-tool-executor.ts:32-64 | completing a request just registered after records with other ids updates that record and no other |
| ToolExecutor.ToolCallStore.constructor | cli/src/hooks/use-tool-executor.ts:6-9 | the record list starts empty |
| ToolExecutor.ToolCallStore.AddToolCall | cli/src/hooks/use-tool-executor.ts:7 | one record is appended |
| ToolExecutor.ToolCallStore.UpdateToolCall | cli/src/hooks/use-tool-executor.ts:8 | the scan patches the record `PatchToolCall` describes |
| ToolExecutor.RegisterToolCall | cli/src/hooks/use-tool-executor.ts:32-45 | exactly one executing record is added and its derived id returned |
| ToolExecutor.ExecuteToolCall | cli/src/hooks/use-tool-executor.ts:47-64 | the tool runs through the registry, the record with the same derived id is completed with its result, and the result is returned unchanged |
| SearchOnline.ParseParams | cli/src/tools/search-online.ts:4-6 | the parameters are accepted exactly when `query` is a string, which is the query |
| SearchOnline.Truncate | cli/src/tools/search-online.ts:86-88 | markdown of at most 2000 code units is kept whole; longer markdown keeps its first 2000 followed by the truncation marker |
| SearchOnline.Title | cli/src/tools/search-online.ts:80 | a result's title is never empty: "Untitled" stands in for a missing or empty one |
| SearchOnline.EntriesPrefix | cli/src/tools/search-online.ts:78-92 | the text for fewer results is a prefix of the text for more |
| SearchOnline.EntryAt | cli/src/tools/search-online.ts:78-92 | result k appears, numbered k + 1, right after the blocks of the results before it |
| SearchOnline.FormatResults | cli/src/tools/search-online.ts:75-92 | the loop builds the header followed by one block per result, in order |
| SearchOnline.AppendEntry | cli/src/tools/search-online.ts:79-91 | one pass of the loop appends the title line, the URL, the description and content when present, and a blank line |
| SearchOnline.SearchOutcome | cli/src/tools/search-online.ts:34-107 | the search succeeds exactly when an answer body arrives; a throw gives "Search failed" with "Error: " plus its message, an HTTP error gives "Search failed" with "Error: Firecrawl API error: " plus the status, " - " and the body text; an unsuccessful or empty answer gives "No results found" with "No search results found for" and the quoted query; otherwise "Found n results" and the formatted text |
| SearchOnline.SearchWithFirecrawl | cli/src/tools/search-online.ts:34-107 | the method returns what `SearchOutcome` gives |
| SearchOnline.ExecuteSpec | cli/src/tools/search-online.ts:12-31 | an empty query and a missing key are refused with their own messages, checked in that order; the tool succeeds exactly when both are present and an answer body arrives |
| SearchOnline.Execute | cli/src/tools/search-online.ts:12-31 | the method returns what `ExecuteSpec` gives |
| Streaming.AbortController.constructor | cli/src/hooks/use-streaming.ts:24 | a new controller is not aborted |
| Streaming.AbortController.Abort | cli/src/hooks/use-streaming.ts:43 | the controller is aborted afterwards |
| Streaming.Streaming.constructor | cli/src/hooks/use-streaming.ts:18-21 | not streaming, start time 0, no tokens, no controller |
| Streaming.Streaming.StartStreaming | cli/src/hooks/use-streaming.ts:23-30 | a fresh, unaborted controller is stored and returned; streaming is on, the start time is the clock reading and the token count is 0 |
| Streaming.Streaming.UpdateTokenCount | cli/src/hooks/use-streaming.ts:32-34 | only the token count changes |
| Streaming.Streaming.EndStreaming | cli/src/hooks/use-streaming.ts:36-39 | streaming is off and the controller is dropped; start time and token count are kept |
| Streaming.Streaming.CancelStream | cli/src/hooks/use-streaming.ts:41-45 | the stored controller, if any, is aborted |
| SmartShortcut.SummaryLine | cli/src/hooks/use-smart-shortcut.ts:38 | a summary line starts with the variant and ": ", the rest is a prefix of the content of at most 200 code units, and a content of at most 200 code units appears whole |
| SmartShortcut.Recent | cli/src/hooks/use-smart-shortcut.ts:34 | the last ten messages, or all of them when there are fewer |
| SmartShortcut.Lines | cli/src/hooks/use-smart-shortcut.ts:37-38 | one summary line per message, in order |
| SmartShortcut.Summary | cli/src/hooks/use-smart-shortcut.ts:33-39 | the text the hook asks about: the last ten messages and the new user message, one summary line each, joined with newlines; SummaryEndsWithContent proves the user line comes last, after the recent lines |
| SmartShortcut.SummaryEndsWithContent | cli/src/hooks/use-smart-shortcut.ts:33-39 | the summary is the recent messages' lines followed by the new user message's line, newline-separated |
| SmartShortcut.SmartShortcut.constructor | cli/src/hooks/use-smart-shortcut.ts:21 | nothing is pending at first |
| SmartShortcut.SmartShortcut.CheckAndGenerateShortcut | cli/src/hooks/use-smart-shortcut.ts:23-51 | a request with the summary is issued, and marked pending, exactly for a positive multiple of three with nothing pending; otherwise nothing happens |
| SmartShortcut.SmartShortcut.Settle | cli/src/hooks/use-smart-shortcut.ts:42-50 | when the request settles nothing is pending, and only a truthy shortcut is handed on |
| ChatTypes.ApplyPatch | cli/src/state/chat-store.ts:69 | the fields the patch has are overwritten, the others kept; the id and the feedback are never touched |
| ChatStore.FindMessage | cli/src/state/chat-store.ts:67-113 | the index found is the first message with the id; none when no message has it |
| ChatStore.FindMessageSameIds | cli/src/state/chat-store.ts:67 | lists with the same ids position by position find the same index |
| ChatStore.FindAppended | cli/src/state/chat-store.ts:62-67 | a message appended after messages with other ids is the one found by its id |
| ChatStore.PatchLast | cli/src/state/chat-store.ts:60-71 | updating a message just added after messages with other ids patches that message and leaves the others |
| ChatStore.AppendLast | cli/src/state/chat-store.ts:60-118 | appending to a message just added after messages with other ids extends its content only |
| ChatStore.PatchFirst | cli/src/state/chat-store.ts:65-71 | the first message with the id is patched and every other position kept; an unknown id changes nothing; ids never change |
| ChatStore.AppendFirst | cli/src/state/chat-store.ts:111-116 | the text is appended to the content of the first message with the id, every other position kept; an unknown id changes nothing |
| ChatStore.AppendFirstTwice | cli/src/state/chat-store.ts:108-118 | streaming two chunks into a message is streaming their concatenation |
| ChatStore.AppendAllIsAppendConcat | cli/src/state/chat-store.ts:108-118 | a whole stream of chunks lands in the message as their concatenation |
| ChatStore.ChatStore.constructor | cli/src/state/chat-store.ts:39-48 | no messages, empty input with cursor 0, focused, focus support off, not streaming, no streaming id |
| ChatStore.ChatStore.SetMessages | cli/src/state/chat-store.ts:54-58 | a list, or an updater applied to the current list, becomes the message list; nothing else changes |
| ChatStore.ChatStore.AddMessage | cli/src/state/chat-store.ts:60-63 | the message is appended; nothing else changes |
| ChatStore.ChatStore.UpdateMessage | cli/src/state/chat-store.ts:65-71 | the scan patches the message `PatchFirst` describes; nothing else changes |
| ChatStore.ChatStore.SetInputValue | cli/src/state/chat-store.ts:73-86 | a value or an updater of the current value is stored with its cursor clamped; nothing else changes |
| ChatStore.ChatStore.SetInputFocused | cli/src/state/chat-store.ts:88-91 | only the focus flag changes |
| ChatStore.ChatStore.SetIsFocusSupported | cli/src/state/chat-store.ts:93-96 | only the focus-support flag changes |
| ChatStore.ChatStore.SetIsStreaming | cli/src/state/chat-store.ts:98-101 | only the streaming flag changes |
| ChatStore.ChatStore.SetStreamingMessageId | cli/src/state/chat-store.ts:103-106 | only the streaming id changes |
| ChatStore.ChatStore.AppendToStreamingMessage | cli/src/state/chat-store.ts:108-118 | with a truthy streaming id the content is appended as `AppendFirst` describes; with none the messages are kept; nothing else changes |
| ChatStore.ChatStore.Reset | cli/src/state/chat-store.ts:120-129 | everything returns to its initial value except focus support, which is kept |
| InputKeyboard.IgnoredWhenUnfocusedOrIntercepted | cli/src/hooks/use-input-keyboard.ts:63-68 | an unfocused input, or a key the interceptor took, does nothing and does not prevent the key's default |
| InputKeyboard.HandleKey | cli/src/hooks/use-input-keyboard.ts:62-344 | the whole key handler: an unfocused or intercepted key is ignored, and otherwise the bindings are tried in the source's order (newline chords, Enter, deletions, movements, insertions); the InputKeyboard lemmas in this table state what each binding does, PreventedIffBound when the default is stopped, and EmittedCursorInRange that every emitted cursor is in range |
| InputKeyboard.EmittedCursorInRange | cli/src/hooks/use-input-keyboard.ts:62-344 | every value the handler emits keeps the cursor inside the new text |
| InputKeyboard.DeletionKeyInRange | cli/src/hooks/use-input-keyboard.ts:144-217 | the same for the deletion bindings |
| InputKeyboard.NavigationKeyInRange | cli/src/hooks/use-input-keyboard.ts:219-315 | the same for the cursor-movement bindings |
| InputKeyboard.InsertionKeyInRange | cli/src/hooks/use-input-keyboard.ts:317-343 | the same for Tab and character insertion |
| InputKeyboard.BackslashEnterReplacesBackslash | cli/src/hooks/use-input-keyboard.ts:84-120 | Enter after a backslash replaces the backslash with a newline and keeps the cursor, whatever modifiers are held |
| InputKeyboard.BackslashEnterExample | cli/src/hooks/use-input-keyboard.ts:111-120 | "ab\" with the cursor at the end becomes "ab" and a newline |
| InputKeyboard.NewlineChordInsertsNewline | cli/src/hooks/use-input-keyboard.ts:97-130 | Shift+Enter, Option+Enter, an escape-prefixed Enter, Ctrl+J and Ctrl+Enter insert a newline at the cursor and step past it |
| InputKeyboard.SubmitIffPlainEnter | cli/src/hooks/use-input-keyboard.ts:87-137 | submission happens exactly for a plain Enter: a carriage return with no modifier, no escape prefix and no backslash before the cursor, on a focused input whose interceptor declined |
| InputKeyboard.CtrlUDeletesToLineStart | cli/src/hooks/use-input-keyboard.ts:145-164 | Ctrl+U deletes back to the line start; at a line start it deletes the newline before the cursor; at offset 0 the key is consumed (its default prevented) with no change |
| InputKeyboard.DeleteWordBackward | cli/src/hooks/use-input-keyboard.ts:167-179 | Ctrl+W, or Backspace with an Alt-like modifier, deletes back to the previous word boundary |
| InputKeyboard.CtrlKDeletesToLineEnd | cli/src/hooks/use-input-keyboard.ts:182-187 | Ctrl+K deletes to the line end, keeps the cursor and marks the edit as navigation |
| InputKeyboard.OnlyCtrlKIsNavigationEdit | cli/src/hooks/use-input-keyboard.ts:182-187 | no other binding marks its edit as navigation |
| InputKeyboard.BackspaceDeletesPrevious | cli/src/hooks/use-input-keyboard.ts:190-202 | plain Backspace deletes the character before the cursor; at offset 0 the key is still consumed, with no change |
| InputKeyboard.DeleteRemovesNext | cli/src/hooks/use-input-keyboard.ts:205-217 | plain Delete deletes the character at the cursor; at the end the key is still consumed, with no change |
| InputKeyboard.AltArrowsJumpWords | cli/src/hooks/use-input-keyboard.ts:220-239 | Alt+Left and Alt+Right jump to the word boundaries and always emit, even when the cursor does not move |
| InputKeyboard.HomeEndGoToLineEdges | cli/src/hooks/use-input-keyboard.ts:242-269 | Home goes to the line start and End to the line end |
| InputKeyboard.ArrowsMoveClamped | cli/src/hooks/use-input-keyboard.ts:290-315 | plain arrows move by one (left, right) or to the ends (up, down), clamped; when the cursor would not move they emit nothing but are still consumed |
| InputKeyboard.TabInsertsTwoSpaces | cli/src/hooks/use-input-keyboard.ts:318-329 | Tab inserts two spaces at the cursor |
| InputKeyboard.PrintableCharInserted | cli/src/hooks/use-input-keyboard.ts:332-343 | a printable single character with no modifier is inserted at the cursor and the cursor steps past it |
| InputKeyboard.ControlCharIgnored | cli/src/hooks/use-input-keyboard.ts:332-343 | a lone control character matches no binding: nothing is emitted and its default is not prevented |
| InputKeyboard.PreventedIffBound | cli/src/hooks/use-input-keyboard.ts:106-341 | a focused handler calls `preventKeyDefault` exactly when one of its nineteen bindings matches the key, also when that binding then changes nothing (Backspace at 0, Delete at the end, an arrow at the edge, Ctrl+U at 0) |
| InputKeyboard.DeletionPreventedIff | cli/src/hooks/use-input-keyboard.ts:144-341 | from the Ctrl+U binding on, the key's default is stopped exactly when a deletion, movement or insertion guard matches |
| InputKeyboard.NavigationPreventedIff | cli/src/hooks/use-input-keyboard.ts:219-341 | from the word-left binding on, the key's default is stopped exactly when a movement or insertion guard matches |
| InputKeyboard.InsertionPreventedIff | cli/src/hooks/use-input-keyboard.ts:317-341 | the Tab and printable-character bindings stop the default exactly when their guards match |
| MultilineInput.InputRefs.constructor | cli/src/components/multiline-input.tsx:115-116 | the refs start at the rendered value and cursor |
| MultilineInput.InputRefs.Sync | cli/src/components/multiline-input.tsx:118-121 | the effect copies the rendered value and cursor into the refs |
| MultilineInput.InputRefs.HandlePaste | cli/src/components/multiline-input.tsx:147-170 | an unfocused input or an empty paste changes nothing and emits nothing; otherwise the text goes in at the ref cursor, the cursor steps past it, and the new value is emitted as a non-navigation edit |
| MultilineInput.PasteTwiceIsPasteOfBoth | cli/src/components/multiline-input.tsx:154-162 | pasting a and then b at the moved cursor equals pasting a + b once, and the cursor stays in range |
| MultilineInput.PasteTwice | cli/src/components/multiline-input.tsx:147-170 | two pastes before the next render build on each other through the refs: the result is the paste of both |
| MultilineInput.IsPlaceholder | cli/src/components/multiline-input.tsx:230 | the placeholder shows exactly when the value is empty and the placeholder is not |
| MultilineInput.DisplayValue | cli/src/components/multiline-input.tsx:231 | the placeholder is displayed when it shows, the value otherwise; an empty display means both are empty |
| MultilineInput.ShowCursor | cli/src/components/input/MultilineInput.tsx:154 | no cursor is drawn on an unfocused input, and none when hidden; with hideCursor off the newer component follows the older one's rule, `OlderShowCursor` (cursor whenever focused, multiline-input.tsx:232) |
| MultilineInput.OlderShowCursor | cli/src/components/multiline-input.tsx:232 | the older component draws a cursor exactly when it is focused; ShowCursor proves the newer one agrees when the cursor is not hidden |
| MultilineInput.SlashCommandEnd | cli/src/components/multiline-input.tsx:241-246 | 0 exactly when the value does not start with '/'; otherwise the first space or the end of the value, with no space before it |
| MultilineInput.ShouldHighlightIff | cli/src/components/multiline-input.tsx:232-265 | the character under the cursor is highlighted exactly when the input is focused (so the cursor shows), shows a real value rather than the placeholder, and the cursor sits on a character that is neither a newline nor a tab |
| MultilineInput.ShouldHighlight | cli/src/components/multiline-input.tsx:232-265 | the cursor character is drawn highlighted; ShouldHighlightIff proves this happens exactly when the input is focused, shows a real value, and the cursor is on a character that is neither a newline nor a tab |
| MultilineInput.HeightLines | cli/src/components/multiline-input.tsx:575-582 | the box height lies between the effective minimum and the safe maximum, equals the line count when that is in range, and is clamped to the nearer bound otherwise |
| MultilineInput.TotalLines | cli/src/components/multiline-input.tsx:578-579 | the buffer's line count, or 1 until the width is measured and line information exists; DefaultHeightBounds proves the box is 1 to 5 lines with the default heights, and 1 line before measuring |
| MultilineInput.DefaultHeightBounds | cli/src/components/multiline-input.tsx:575-582 | with the default heights the box is 1 to 5 lines, and 1 before the text buffer is measured |
| App.PlaceholderReply | cli/src/app.tsx:77 | the placeholder reply starts with "Received: " and the content in double quotes, and is longer than the content |
| App.InputEditable | cli/src/app.tsx:192 | the input box is never editable while a reply streams; through the turn, StartTurn locks it, TypeOut keeps it locked and FinishTurn gives it back exactly the store's focus, and StreamingInputIgnoresKeys shows a locked box ignores every key |
| App.ErrorContent | cli/src/app.tsx:85 | the failed reply's text: "Error: " and the thrown error's message, or "Unknown" when it is not an Error; FinishTurn states that a throw leaves exactly this text in the reply |
| App.StreamingInputIgnoresKeys | cli/src/app.tsx:192 | while a reply streams the box's key handler ignores every key: no edit, no submit, no key consumed |
| App.StartTurn | cli/src/app.tsx:54-74 | a complete user message and an empty streaming AI message are appended, and the AI message becomes the streaming message; the input is untouched and the box is locked |
| App.TypeOut | cli/src/app.tsx:77-81 | the reply grows by one code unit per step, each step's content is the next prefix of the reply, and a throw at step k leaves the first k code units; the streaming state, and so the box's lock, does not change |
| App.FinishTurn | cli/src/app.tsx:76-93 | the turn ends with the complete reply, or, when a step throws, with an error message "Error: " plus the error's message ("Unknown" for a non-Error); streaming stops either way, and the box is editable again exactly when the input is focused |
| App.HandleSubmit | cli/src/app.tsx:98-103 | blank input or a streaming reply changes nothing; otherwise the trimmed text starts a turn, the input is cleared and the box is locked; the focus flag is kept |
| App.SubmitAndReply | cli/src/app.tsx:52-103 | a submitted non-blank input ends as the user message followed by the complete placeholder reply, with streaming off, the input empty, and the box editable again exactly when the input was focused |
| App.StartedShape | cli/src/app.tsx:54-71 | after a turn starts the user message is second to last, the placeholder last, and the placeholder's id is unique |
| App.HandleCtrlC | cli/src/app.tsx:106-119 | Ctrl+C on empty input asks to exit; on non-empty input it clears the input; other keys change nothing; the messages are never touched |
| AppKeyboard.Names | cli/src/hooks/use-app-keyboard.ts:94 | the names of the searched commands or context items, one per result, in order |
| AppKeyboard.Selected | cli/src/hooks/use-app-keyboard.ts:114 | the entry at the selected index when it is in range, otherwise the first; always one of the names |
| AppKeyboard.MenuUp | cli/src/hooks/use-app-keyboard.ts:97 | Up stays in range, steps back by one, and wraps from the first entry to the last |
| AppKeyboard.Cycle | cli/src/hooks/use-app-keyboard.ts:58-63 | the mode and model cycles stay in range, step forward by one and wrap from the last to 0; Down in a menu (line 99) takes the same step |
| AppKeyboard.MenuMove | cli/src/hooks/use-app-keyboard.ts:93-103 | Up and Down are consumed, call nothing, change only the selected index, keep it inside the results, and do nothing on an empty result |
| AppKeyboard.MenuComplete | cli/src/hooks/use-app-keyboard.ts:111-121 | Tab in a menu is consumed; with results it closes the menus and fills in a listed name plus a space with the cursor at the end, as a non-navigation edit; with none it does nothing |
| AppKeyboard.MenuChoose | cli/src/hooks/use-app-keyboard.ts:123-139 | Enter in a menu closes the menus; it is consumed exactly when there are results, and then sends a listed name and clears the input |
| AppKeyboard.LastCompletedTool | cli/src/hooks/use-app-keyboard.ts:178-181 | the last tool call that is complete with a non-empty full result, or none when no call is |
| AppKeyboard.ClampSelection | cli/src/hooks/use-app-keyboard.ts:236-243 | the effect only lowers the selected index, and only when it is past the results, to the last result or 0; nothing else changes, and nothing when no menu is open |
| AppKeyboard.AppKeyboard.constructor | cli/src/hooks/use-app-keyboard.ts:46-51 | the panels start closed at index 0 with no pending exit, and the tries hold the command and context lists |
| AppKeyboard.AppKeyboard.Filtered | cli/src/hooks/use-app-keyboard.ts:94 | the open menu's search results, as names, found through the tries |
| AppKeyboard.AppKeyboard.HandleKeyIntercept | cli/src/hooks/use-app-keyboard.ts:54-164 | the intercept's new state, consumed flag and calls are those of the intercept function, and the invariant is kept |
| AppKeyboard.AppKeyboard.HandleMenuKey | cli/src/hooks/use-app-keyboard.ts:93-161 | the same for the menu keys |
| AppKeyboard.AppKeyboard.MoveSelection | cli/src/hooks/use-app-keyboard.ts:93-103 | the same for Up and Down in a menu |
| AppKeyboard.AppKeyboard.Complete | cli/src/hooks/use-app-keyboard.ts:111-121 | the same for Tab in a menu |
| AppKeyboard.AppKeyboard.Choose | cli/src/hooks/use-app-keyboard.ts:123-139 | the same for Enter in a menu |
| AppKeyboard.AppKeyboard.HandleCloseKey | cli/src/hooks/use-app-keyboard.ts:141-161 | the same for Space, Backspace and Escape |
| AppKeyboard.AppKeyboard.HandleGlobalKey | cli/src/hooks/use-app-keyboard.ts:167-233 | the global handler's new state and calls are those of the global function, and the invariant is kept |
| AppKeyboard.AppKeyboard.ExpirePendingExit | cli/src/hooks/use-app-keyboard.ts:211-214 | the timer only clears the pending exit |
| AppKeyboard.AppKeyboard.ClampSelectedIndex | cli/src/hooks/use-app-keyboard.ts:236-243 | the effect's new state is that of the clamp function |
| AppKeyboard.FindLastCompleted | cli/src/hooks/use-app-keyboard.ts:178-181 | the scan finds the last expandable tool call |
| AppKeyboard.LastCompletedIsLast | cli/src/hooks/use-app-keyboard.ts:178-181 | an expandable call with none after it is the one found |
| AppKeyboard.ModelAndModeCycle | cli/src/hooks/use-app-keyboard.ts:57-65 | Shift+M is consumed and changes only the mode, to the next one modulo the mode count; Shift+Tab does the same for the model |
| AppKeyboard.PressManyAdd | cli/src/hooks/use-app-keyboard.ts:57-65 | pressing a key a + b times is pressing it a times and then b times |
| AppKeyboard.ModeAdvances | cli/src/hooks/use-app-keyboard.ts:57-60 | below the last mode, k presses of Shift+M advance the mode by k |
| AppKeyboard.ModeCycleReturns | cli/src/hooks/use-app-keyboard.ts:57-60 | as many presses of Shift+M as there are modes restore the state |
| AppKeyboard.QuestionMarkToggles | cli/src/hooks/use-app-keyboard.ts:67-75 | '?' is consumed; with the commands menu open it does nothing, otherwise it toggles the shortcuts panel and hides the context panel |
| AppKeyboard.SlashAndStarOpenMenus | cli/src/hooks/use-app-keyboard.ts:77-91 | '/' and '*' on an empty input open that menu alone at its first entry and let the key through |
| AppKeyboard.MenuUpDownInverse | cli/src/hooks/use-app-keyboard.ts:97-99 | Up then Down, or Down then Up, returns to the same entry |
| AppKeyboard.MenuArrowsStayInRange | cli/src/hooks/use-app-keyboard.ts:93-103 | with a menu open, Up and Down are consumed and keep the selection inside the results |
| AppKeyboard.TabSendsShortcut | cli/src/hooks/use-app-keyboard.ts:105-109 | Tab on an empty input with no menu sends the smart shortcut and clears it |
| AppKeyboard.TabCompletesName | cli/src/hooks/use-app-keyboard.ts:111-121 | Tab in a menu fills in a name with the cursor at its end and closes the menus |
| AppKeyboard.EnterChoosesName | cli/src/hooks/use-app-keyboard.ts:123-139 | Enter in a menu sends a listed name and clears the input when something matches; otherwise it closes the menus and falls through to submit |
| AppKeyboard.EscapeClosesPanels | cli/src/hooks/use-app-keyboard.ts:155-160 | Escape with a panel open closes all three and is consumed |
| AppKeyboard.InterceptKeepsOneMenu | cli/src/hooks/use-app-keyboard.ts:54-164 | the intercept never leaves both menus open |
| AppKeyboard.Intercept | cli/src/hooks/use-app-keyboard.ts:54-164 | the intercept handler's state, consumed flag and calls; ModelAndModeCycle, QuestionMarkToggles, SlashAndStarOpenMenus, EscapeClosesPanels and InterceptKeepsOneMenu state each of its branches, and HandleKeyIntercept is proved to compute it |
| AppKeyboard.MenuKey | cli/src/hooks/use-app-keyboard.ts:93-139 | the menu part of the intercept: arrows, the Tab shortcut, Tab and Enter in a menu; MenuMove, MenuArrowsStayInRange, MenuUpDownInverse, TabSendsShortcut, TabCompletesName and EnterChoosesName state its cases |
| AppKeyboard.CloseKey | cli/src/hooks/use-app-keyboard.ts:141-161 | Space in a menu closes the menus and lets the key through; Backspace in a menu does the same when the input is a lone '/' or '*' or starts with neither, and otherwise only lets the key through; Escape with a panel open closes every panel and is consumed; any other key is not handled. EscapeClosesPanels states the Escape case |
| AppKeyboard.Global | cli/src/hooks/use-app-keyboard.ts:167-229 | the global handler's new state and calls; StreamingKeysCancel, CtrlOTogglesLastTool, CtrlCWhenIdle, ExitOnlyWhenPending, OtherKeysDropPendingExit and BackspaceClosesPanels state its branches, and HandleGlobalKey is proved to compute it |
| AppKeyboard.StreamingKeysCancel | cli/src/hooks/use-app-keyboard.ts:171-191 | while streaming, Escape and Ctrl+C only cancel the stream |
| AppKeyboard.CtrlCWhenIdle | cli/src/hooks/use-app-keyboard.ts:186-216 | Ctrl+C when idle clears a non-empty input and drops the pending exit; on an empty input the first press arms the pending exit and the second exits |
| AppKeyboard.ExitOnlyWhenPending | cli/src/hooks/use-app-keyboard.ts:201-203 | the app exits only on Ctrl+C with an empty input, no stream and the exit pending |
| AppKeyboard.CtrlOTogglesLastTool | cli/src/hooks/use-app-keyboard.ts:177-184 | Ctrl+O toggles the last complete tool call with a result, and does nothing when there is none |
| AppKeyboard.OtherKeysDropPendingExit | cli/src/hooks/use-app-keyboard.ts:223-229 | any key other than a Ctrl chord or 'c' drops the pending exit |
| AppKeyboard.BackspaceClosesPanels | cli/src/hooks/use-app-keyboard.ts:218-221 | Backspace on an empty input closes the shortcuts and context panels and leaves the commands menu and the index alone |
| Trie.MatchingSnoc | cli/src/utils/trie.ts:13-21 | an added item is matched after the earlier ones exactly when its lower-cased key starts with the prefix |
| Trie.Matching | cli/src/utils/trie.ts:13-40 | the items whose lower-cased key starts with the prefix, in insertion order; MatchingSnoc, MatchingRefine, MatchingMembers and MatchingDistinct state what it keeps |
| Trie.SearchSpec | cli/src/utils/trie.ts:28-40 | what a search returns: nothing for the empty prefix, otherwise Matching of the lower-cased prefix; Trie.Search is proved to return it, and SearchMembers, SearchCaseInsensitive, SearchDistinct and SearchNarrows state its properties |
| Trie.MatchingEmptyExtends | cli/src/utils/trie.ts:32-35 | when nothing matches a prefix, nothing matches any extension of it |
| Trie.MatchingRefine | cli/src/utils/trie.ts:32-39 | matching a longer prefix equals filtering the matches of a shorter one |
| Trie.MatchingMembers | cli/src/utils/trie.ts:15-20 | an item is matched exactly when it is one of the items and its lower-cased key starts with the prefix |
| Trie.MatchingDistinct | cli/src/utils/trie.ts:13-21 | matching distinct items gives distinct items |
| Trie.InsertPath | cli/src/utils/trie.ts:14-21 | walking a new item's key from the root, creating missing children and pushing the item at every node, keeps the trie's shape and makes every node hold exactly the items matching its path |
| Trie.Trie.constructor | cli/src/utils/trie.ts:11 | a new trie holds only the root and no items |
| Trie.Trie.Insert | cli/src/utils/trie.ts:13-21 | inserting an item keeps the trie's invariant and records the item after the earlier ones |
| Trie.Trie.Search | cli/src/utils/trie.ts:28-40 | the search returns the inserted items whose lower-cased key starts with the lower-cased prefix, in insertion order, and nothing for the empty prefix |
| Trie.Descend | cli/src/utils/trie.ts:32-37 | following the prefix ends at the node whose path is the prefix, or stops at a missing child, and then nothing matches |
| Trie.BuildTrie | cli/src/utils/trie.ts:10-25 | the built trie holds all the items in order and satisfies the invariant |
| Trie.SearchMembers | cli/src/utils/trie.ts:28-40 | the empty prefix finds nothing; any other prefix finds exactly the items whose lower-cased key starts with the lower-cased prefix |
| Trie.SearchCaseInsensitive | cli/src/utils/trie.ts:30 | the case of the prefix does not matter |
| Trie.SearchDistinct | cli/src/utils/trie.ts:28-40 | distinct items are found at most once each |
| Trie.SearchNarrows | cli/src/utils/trie.ts:32-39 | typing one more character filters the previous results further |
| ChatHandler.HistoryOf | cli/src/hooks/use-chat-handler.ts:98-103 | the earlier messages the backend sees, at most as many as there are messages |
| ChatHandler.HistoryOfAppend | cli/src/hooks/use-chat-handler.ts:98-103 | the history of two lists one after the other is the two histories one after the other |
| ChatHandler.HistoryOfSources | cli/src/hooks/use-chat-handler.ts:99-103 | every history entry comes from a complete message that is not an error, user messages as the user's and the rest as the assistant's |
| ChatHandler.HistoryOfComplete | cli/src/hooks/use-chat-handler.ts:99-103 | every complete message that is not an error reaches the history, in order |
| ChatHandler.InitialHistory | cli/src/hooks/use-chat-handler.ts:96-105 | the first call's history starts with the system prompt, ends with the new user message, and has the earlier history in between |
| ChatHandler.ToolMessages | cli/src/hooks/use-chat-handler.ts:136-142 | one "[Tool Result for name]" message per executed tool call, in order |
| ChatHandler.ToolMessage | cli/src/hooks/use-chat-handler.ts:138-141 | the user message a tool result adds: "[Tool Result for name]", the full result and the request to answer from it; ToolMessages and HistoryGrows state that each executed call adds exactly one, after the rest |
| ChatHandler.RunTools | cli/src/hooks/use-chat-handler.ts:136-142 | running the first n calls of a round gives n results |
| ChatHandler.AfterSnoc | cli/src/hooks/use-chat-handler.ts:136-142 | the tools of one more round run on the plan the earlier rounds left, and their results follow the history so far |
| ChatHandler.Requests | cli/src/hooks/use-chat-handler.ts:111-129 | one backend call per round |
| ChatHandler.RequestAt | cli/src/hooks/use-chat-handler.ts:114-156 | backend call j sees the history after the tools of the rounds before it, and only the first call is flagged as the first |
| ChatHandler.ToolRounds | cli/src/hooks/use-chat-handler.ts:131-160 | the tools of every round run except the last's, whose returned calls run too only when it did not throw |
| ChatHandler.ClosedRounds | cli/src/hooks/use-chat-handler.ts:133 | the reply of each round that returned tool calls is marked complete and no longer streaming, with the text streamed into it |
| ChatHandler.TurnSettled | cli/src/hooks/use-chat-handler.ts:133-173 | every message the turn leaves is complete and no longer streaming |
| ChatHandler.TurnLength | cli/src/hooks/use-chat-handler.ts:59-153 | the turn starts with the user message and adds one reply per round, plus one when the last round was cancelled after returning tool calls |
| ChatHandler.LastMessages | cli/src/hooks/use-chat-handler.ts:131-183 | the last round's messages: an interrupted reply on a cancel, an error message on a throw without a cancel, and the complete reply, interrupted exactly when cancelled, when the round made no tool calls; and the closed reply plus an empty interrupted one when a round with tool calls was cancelled. ErrorIffFailure and InterruptedIffCancel state these cases |
| ChatHandler.TurnMessages | cli/src/hooks/use-chat-handler.ts:59-183 | every message the turn adds, in order; TurnLength, TurnSettled, ErrorIffFailure and InterruptedIffCancel state its length and shape, and HandleSendMessage is proved to leave exactly these messages |
| ChatHandler.ErrorIffFailure | cli/src/hooks/use-chat-handler.ts:163-174 | an error message appears exactly when the last call threw and the user had not cancelled, and then it is the last message and reads "Error: " plus the message |
| ChatHandler.InterruptedIffCancel | cli/src/hooks/use-chat-handler.ts:176-178 | only the last message can be marked interrupted, and it is exactly when the user cancelled |
| ChatHandler.RunToolsKeepsPlanOpen | cli/src/hooks/use-chat-handler.ts:136-142 | a plan that is empty or has unfinished items stays so after the tools of a round |
| ChatHandler.PlanAfterOpen | cli/src/hooks/use-chat-handler.ts:57-142 | the plan after any number of rounds is empty or has unfinished items |
| ChatHandler.HistoryGrows | cli/src/hooks/use-chat-handler.ts:136-142 | each executed tool call adds exactly one history entry, after what was there |
| ChatHandler.Registrations | cli/src/hooks/use-chat-handler.ts:121-124 | one pending tool-call record per announced call, against the current reply |
| ChatHandler.PatchRun | cli/src/hooks/use-tool-executor.ts:47-57 | the records after some of a round's calls have run in order, each completing the first record with its derived id; the number of records does not change; PatchRunOwn says which record each call completes |
| ChatHandler.PatchRunOwn | cli/src/hooks/use-chat-handler.ts:121-142 | when a round's call ids are distinct and unknown to the older records, each call that ran completes exactly its own record with its result, and the records of calls still to run stay executing |
| ChatHandler.RecordsAfter | cli/src/hooks/use-chat-handler.ts:111-142 | the records after the tools of k rounds: each round's calls registered against its reply, then completed in order; one record per call announced |
| ChatHandler.TurnRecords | cli/src/hooks/use-chat-handler.ts:111-183 | the records a whole turn leaves: those of the rounds whose tools ran, then, when the last round threw, the calls it announced, registered but not run; one record per call announced |
| ChatHandler.StreamChunks | cli/src/hooks/use-chat-handler.ts:117-120 | the chunks' text is appended to the reply, the last chunk's token count is recorded, nothing else in the store changes |
| ChatHandler.AnnounceToolCalls | cli/src/hooks/use-chat-handler.ts:121-124 | a record is registered for every announced call, in order |
| ChatHandler.StreamRound | cli/src/hooks/use-chat-handler.ts:114-129 | one backend call: its chunks are appended to the reply, its tool calls registered against it, and a cancel aborts the controller |
| ChatHandler.RunOneTool | cli/src/hooks/use-chat-handler.ts:137 | a tool call runs through the registry on the current plan, and the first record with its derived id is completed with the result's status, summary and full text |
| ChatHandler.RunRoundTools | cli/src/hooks/use-chat-handler.ts:136-142 | the returned calls run in order on the plan store, each result is appended to the history, and the records end as `PatchRun` of their results |
| ChatHandler.NextReply | cli/src/hooks/use-chat-handler.ts:131-156 | the reply is completed, the tools run, and a fresh empty reply becomes the streaming message, as the next row of the table of rounds says |
| ChatHandler.OpenRound | cli/src/hooks/use-chat-handler.ts:111-129 | the backend call of round k is made with the history so far and streamed into the reply; the controller is aborted exactly when that round is cancelled |
| ChatHandler.Round | cli/src/hooks/use-chat-handler.ts:111-160 | one pass of the loop body moves the state from one round's row to the next, or to the row of the round that ends the turn |
| ChatHandler.Settle | cli/src/hooks/use-chat-handler.ts:162-183 | the reply is finalised, or made an error message when the call threw without a cancel; a cancel marks it interrupted; streaming is switched off |
| ChatHandler.Begin | cli/src/hooks/use-chat-handler.ts:57-105 | the plan is cleared, the user message and an empty streaming reply are added, the shortcut hook is asked (a request goes out and is marked pending exactly when the gate is open, otherwise the pending flag is unchanged), a fresh controller is started, and the first history is built |
| ChatHandler.Rounds | cli/src/hooks/use-chat-handler.ts:111-160 | the loop runs until a round ends the turn, or ends after an aborted round that returned tool calls |
| ChatHandler.CloseTurn | cli/src/hooks/use-chat-handler.ts:162-183 | after the loop the last reply is settled and the store holds the turn's messages, the tool store holds `TurnRecords`, and streaming is off |
| ChatHandler.HandleSendMessage | cli/src/hooks/use-chat-handler.ts:54-204 | the turn appends exactly the turn's messages, makes one backend call per round with the history so far, leaves the plan the executed tools produced, leaves the tool store holding exactly `TurnRecords` (one record per announced call), sends a shortcut request and marks it pending exactly when the gate is open, and ends with streaming off |
| ChatHandler.FinalMessages | cli/src/hooks/use-chat-handler.ts:131-183 | whichever way the loop ends, the store holds the messages of the turn |
| Markdown.NearestMarker | cli/src/components/markdown.tsx:158-165 | the next marker position lies between the scan position and the end of the text |
| Markdown.BoldClose | cli/src/components/markdown.tsx:128-135 | a "**" at the position is closed by the next "**" after it, which lies inside the text |
| Markdown.CodeClose | cli/src/components/markdown.tsx:138-145 | a backtick at the position is closed by the next backtick after it |
| Markdown.ItalicClose | cli/src/components/markdown.tsx:148-155 | a single '*' at the position is closed by the next '*' after it, unless that one follows another '*' |
| Markdown.Step | cli/src/components/markdown.tsx:126-175 | one loop pass reads a token whose markdown source is exactly the text it consumes, moves forward, and takes the rest of the text as plain text when it stops; plain-text tokens are never empty |
| Markdown.CodeStep | cli/src/components/markdown.tsx:138-175 | the same from the backtick test on |
| Markdown.ItalicStep | cli/src/components/markdown.tsx:148-175 | the same from the italic test on |
| Markdown.PlainStep | cli/src/components/markdown.tsx:158-174 | the plain-text case reads text up to the next marker, or takes the rest of the text when a marker sits at the position |
| Markdown.Tokenize | cli/src/components/markdown.tsx:117-175 | the tokenizer loop returns the tokens of the text |
| Markdown.NextToken | cli/src/components/markdown.tsx:126-175 | one pass of the loop computes the step function |
| Markdown.TryBold | cli/src/components/markdown.tsx:128-135 | the bold test finds the closing "**" the specification names |
| Markdown.TryCode | cli/src/components/markdown.tsx:138-145 | the code test finds the closing backtick |
| Markdown.TryItalic | cli/src/components/markdown.tsx:148-155 | the italic test finds the closing '*' |
| Markdown.FindNextMarker | cli/src/components/markdown.tsx:158-165 | the loop over the three markers finds the nearest one |
| Markdown.TokensFromUnparse | cli/src/components/markdown.tsx:126-175 | the markdown sources of the tokens read from a position spell out the rest of the text |
| Markdown.TokensUnparse | cli/src/components/markdown.tsx:117-175 | the tokens' sources concatenated give the text back: no character is lost or duplicated |
| Markdown.TokensFrom | cli/src/components/markdown.tsx:117-175 | the tokens the loop pushes from a position on; TokensFromUnparse proves their sources spell out the rest of the text |
| Markdown.Tokens | cli/src/components/markdown.tsx:117-175 | the tokens of one line; Tokenize is proved to return them, TokensUnparse that they read back as the line, and PlainText, BoldToken, CodeToken, ItalicToken and UnmatchedMarker give them for each kind of span |
| Markdown.TextTokensNonEmpty | cli/src/components/markdown.tsx:167-174 | no plain-text token is empty |
| Markdown.LastToken | cli/src/components/markdown.tsx:167-174 | a step that reaches the end produces the last token |
| Markdown.NearestNone | cli/src/components/markdown.tsx:158-165 | with no marker ahead the next marker is the end of the text |
| Markdown.NearestAt | cli/src/components/markdown.tsx:158-165 | a marker at the position is the next marker |
| Markdown.NoMarkers | cli/src/components/markdown.tsx:158-165 | text without '*' or backtick has no marker ahead |
| Markdown.PlainText | cli/src/components/markdown.tsx:167-174 | non-empty text without '*' or backtick is a single plain-text token |
| Markdown.BoldToken | cli/src/components/markdown.tsx:128-135 | "**x**" with no '*' in x is a single bold token |
| Markdown.CodeToken | cli/src/components/markdown.tsx:138-145 | a backtick span with no backtick inside is a single code token |
| Markdown.ItalicToken | cli/src/components/markdown.tsx:148-155 | "*x*" with x non-empty and free of '*' is a single italic token |
| Markdown.UnmatchedMarker | cli/src/components/markdown.tsx:138-174 | at an unmatched '*' or backtick, the whole rest of the text becomes one plain-text token, markers after it included |
| Markdown.BreakStep | cli/src/components/markdown.tsx:170-173 | when no span opens at a marker, the loop takes the rest of the text as text and stops |
| Markdown.ItalicCloseCheckHolds | cli/src/components/markdown.tsx:148-150 | the test that the closing '*' does not follow another '*' always passes: the first '*' after a single opening star never follows a '*' |
| Markdown.SplitFrom | cli/src/components/markdown.tsx:24 | splitting on newlines gives at least one piece and no piece holds a newline |
| Markdown.SplitFromJoin | cli/src/components/markdown.tsx:24 | the pieces from a position, joined with newlines, give back the rest of the content |
| Markdown.LinesJoin | cli/src/components/markdown.tsx:24 | the lines, joined with newlines, give back the content |
| Markdown.LeadingHashes | cli/src/components/markdown.tsx:61 | the run of '#' that starts the line, and no longer one |
| Markdown.LeadingDigits | cli/src/components/markdown.tsx:84-85 | the run of decimal digits that starts the line, and no longer one |
| Markdown.SpacesThenRest | cli/src/components/markdown.tsx:61-85 | the group after a run of white space is a non-empty suffix of the line that holds no line terminator |
| Markdown.Render | cli/src/components/markdown.tsx:22-111 | the line loop returns the blocks of the content |
| Markdown.FenceLine | cli/src/components/markdown.tsx:34-53 | a fence line closes an open code block, emitting its buffered lines, or opens one |
| Markdown.CodeLine | cli/src/components/markdown.tsx:55-58 | inside a code block a line is buffered |
| Markdown.OutsideLine | cli/src/components/markdown.tsx:60-107 | outside a code block a line becomes one block |
| Markdown.RenderLine | cli/src/components/markdown.tsx:60-107 | the tests for one line pick the block the line specification names |
| Markdown.ClosedFence | cli/src/components/markdown.tsx:34-58 | the lines up to a closing fence become one code block |
| Markdown.UnclosedFence | cli/src/components/markdown.tsx:34-58 | a code block that is never closed is dropped with all its lines |
| Markdown.LineBlocks | cli/src/components/markdown.tsx:60-107 | one block per line |
| Markdown.LineBlock | cli/src/components/markdown.tsx:60-107 | the block a line outside a code block becomes; RenderLine is proved to pick it, and HeadingLine, BulletLine and BlankLine state its cases |
| Markdown.BlocksFrom | cli/src/components/markdown.tsx:30-108 | the blocks the line loop emits from a line on; FenceLine, CodeLine and OutsideLine state its steps, and ClosedFence and UnclosedFence what becomes of a fenced block |
| Markdown.Blocks | cli/src/components/markdown.tsx:22-111 | the blocks of the content; Render is proved to return them, and NoFences proves content without fences gives one block per line |
| Markdown.NoFences | cli/src/components/markdown.tsx:30-108 | content without fences gives exactly one block per line |
| Markdown.HeadingLine | cli/src/components/markdown.tsx:61-70 | one to three '#', a space and text make a heading of that text |
| Markdown.BulletLine | cli/src/components/markdown.tsx:73-81 | '-' or '*', a space and text make a list item of that text |
| Markdown.BlankLine | cli/src/components/markdown.tsx:97-100 | a line is blank exactly when it is all white space |
| FeedbackIndicator.InitialState | cli/src/components/chat/FeedbackIndicator.tsx:23-27 | a message that already carries feedback starts submitted, any other idle; never expanded |
| FeedbackIndicator.OnKey | cli/src/components/chat/FeedbackIndicator.tsx:33-56 | a rating is sent exactly when the widget of the last message is expanded and the key is '1', '2' or '3', and then the widget is submitted with that rating; the widget becomes submitted only that way |
| FeedbackIndicator.OnKeys | cli/src/components/chat/FeedbackIndicator.tsx:33-56 | keys pressed one after another with the props unchanged; AtMostOnce proves at most one rating is sent, and then the widget is submitted |
| FeedbackIndicator.Indicator.constructor | cli/src/components/chat/FeedbackIndicator.tsx:16-23 | the widget starts in the state the feedback prop gives and has sent nothing |
| FeedbackIndicator.Indicator.SetProps | cli/src/components/chat/FeedbackIndicator.tsx:25-28 | new props re-derive the state when the message id or the feedback changed, and keep it otherwise |
| FeedbackIndicator.Indicator.HandleKey | cli/src/components/chat/FeedbackIndicator.tsx:31-59 | the handler's new state is the key function's, and the rating it sends, with the message id, is appended to the calls of the callback |
| FeedbackIndicator.Inactive | cli/src/components/chat/FeedbackIndicator.tsx:34 | a widget that is not on the last message, or is submitted, ignores every key |
| FeedbackIndicator.IdleKeys | cli/src/components/chat/FeedbackIndicator.tsx:37-42 | in the idle state 'f' expands the widget and every other key is ignored |
| FeedbackIndicator.ExpandedKeys | cli/src/components/chat/FeedbackIndicator.tsx:44-55 | in the expanded state '1', '2' and '3' submit bad, good and great, Escape collapses, and every other key is ignored |
| FeedbackIndicator.AtMostOnce | cli/src/components/chat/FeedbackIndicator.tsx:33-56 | over any run of keys at most one rating is sent, the widget is then submitted, and a submitted widget sends nothing |
| FeedbackIndicator.RatedShowsThanks | cli/src/components/chat/FeedbackIndicator.tsx:62-68 | a message that already carries feedback always shows "[thanks]" |
| FeedbackIndicator.ViewOf | cli/src/components/chat/FeedbackIndicator.tsx:61-90 | thanks when submitted or the message has feedback, the options when expanded, otherwise the arrow; RatedShowsThanks proves existing feedback always shows the thanks |
| PlatformStore.ApplyMachinePatch | cli/src/state/platform-store.ts:130-133 | `Object.assign` of a partial machine: a given id or status replaces the old one, a missing one keeps it, and an empty patch changes nothing |
| PlatformStore.ApplyMatchPatch | cli/src/state/platform-store.ts:186-189 | the same for a partial match |
| PlatformStore.MachinePatchIdempotent | cli/src/state/platform-store.ts:130-133 | applying the same machine patch twice is applying it once |
| PlatformStore.MatchPatchIdempotent | cli/src/state/platform-store.ts:186-189 | applying the same match patch twice is applying it once |
| PlatformStore.FindFirst | cli/src/state/platform-store.ts:128 | a found index holds an entry with the id |
| PlatformStore.FindFirstIsFirst | cli/src/state/platform-store.ts:128 | no entry before the found one has the id, and nothing is found exactly when no entry has it |
| PlatformStore.FindFirstAt | cli/src/state/platform-store.ts:128 | the first entry with the id is the one found |
| PlatformStore.PatchMachines | cli/src/state/platform-store.ts:128-131 | the list keeps its length; without a machine of that id it is unchanged; otherwise only the first such machine is patched |
| PlatformStore.PatchMatches | cli/src/state/platform-store.ts:184-187 | the same for the available matches |
| PlatformStore.PatchMachinesTwice | cli/src/state/platform-store.ts:126-131 | a machine update that keeps the id, applied twice, is applied once |
| PlatformStore.PatchMatchesTwice | cli/src/state/platform-store.ts:182-187 | a match update that keeps the id, applied twice, is applied once |
| PlatformStore.AfterSetUser | cli/src/state/platform-store.ts:92-96 | the user is set, the store is authenticated exactly when there is a user, nothing else changes |
| PlatformStore.AfterSetActiveMachine | cli/src/state/platform-store.ts:109-116 | the machine becomes active, the status is its status or offline, the hints and revealed spoilers are cleared, the active machine and the status agree, nothing else changes |
| PlatformStore.AfterSetMachineStatus | cli/src/state/platform-store.ts:118-124 | the status is set and copied into the active machine if there is one, so the two agree; nothing else changes |
| PlatformStore.AfterUpdateMachine | cli/src/state/platform-store.ts:126-135 | the first listed machine with the id and the active machine, if it has the id, are patched separately; nothing else changes |
| PlatformStore.AfterAddChatMessage | cli/src/state/platform-store.ts:153-159 | the message is appended; the unread count goes up by one exactly for a hint; nothing else changes |
| PlatformStore.AfterRevealSpoiler | cli/src/state/platform-store.ts:161-164 | the hint id joins the revealed set; nothing else changes |
| PlatformStore.AfterUpdateMatch | cli/src/state/platform-store.ts:182-191 | the first available match with the id and the active match, if it has the id, are patched separately; nothing else changes |
| PlatformStore.AfterSetSidebarTab | cli/src/state/platform-store.ts:194-200 | the tab is set; the chat tab zeroes the unread count; nothing else changes |
| PlatformStore.RevealIdempotent | cli/src/state/platform-store.ts:161-164 | revealing a hint twice is revealing it once, and reveals commute |
| PlatformStore.CountHints | cli/src/state/platform-store.ts:156-158 | there are no more hints than messages |
| PlatformStore.AddAllCounts | cli/src/state/platform-store.ts:153-159 | adding messages one by one appends them all and raises the unread count by the number of hints among them |
| PlatformStore.StatusSyncedKept | cli/src/state/platform-store.ts:92-200 | setUser, addChatMessage, revealSpoiler, updateMatch, setSidebarTab and setMachineStatus keep the active machine's status and the store's status in agreement |
| PlatformStore.UpdateMachineSynced | cli/src/state/platform-store.ts:126-135 | a machine update that does not touch the status keeps them in agreement |
| PlatformStore.UpdateMachineStatusLags | cli/src/state/platform-store.ts:126-135 | a machine update that changes the active machine's status leaves the store's status behind |
| PlatformStore.PlatformStore.constructor | cli/src/state/platform-store.ts:71-89 | the store starts in the initial state |
| PlatformStore.PlatformStore.SetUser | cli/src/state/platform-store.ts:92-96 | the new state is that of setUser |
| PlatformStore.PlatformStore.SetAuthenticated | cli/src/state/platform-store.ts:98-101 | only the authenticated flag changes |
| PlatformStore.PlatformStore.SetMachines | cli/src/state/platform-store.ts:104-107 | only the machine list changes |
| PlatformStore.PlatformStore.SetActiveMachine | cli/src/state/platform-store.ts:109-116 | the new state is that of setActiveMachine |
| PlatformStore.PlatformStore.SetMachineStatus | cli/src/state/platform-store.ts:118-124 | the new state is that of setMachineStatus |
| PlatformStore.PlatformStore.UpdateMachine | cli/src/state/platform-store.ts:126-135 | the new state is that of updateMachine |
| PlatformStore.PlatformStore.SetIsLoadingMachines | cli/src/state/platform-store.ts:137-140 | only the loading flag changes |
| PlatformStore.PlatformStore.SetIsSpawning | cli/src/state/platform-store.ts:142-145 | only the spawning flag changes |
| PlatformStore.PlatformStore.SetChatMessages | cli/src/state/platform-store.ts:148-151 | only the hint messages change |
| PlatformStore.PlatformStore.AddChatMessage | cli/src/state/platform-store.ts:153-159 | the new state is that of addChatMessage |
| PlatformStore.PlatformStore.RevealSpoiler | cli/src/state/platform-store.ts:161-164 | the new state is that of revealSpoiler |
| PlatformStore.PlatformStore.ClearUnreadHints | cli/src/state/platform-store.ts:166-169 | only the unread count changes, to 0 |
| PlatformStore.PlatformStore.SetActiveMatch | cli/src/state/platform-store.ts:172-175 | only the active match changes |
| PlatformStore.PlatformStore.SetAvailableMatches | cli/src/state/platform-store.ts:177-180 | only the available matches change |
| PlatformStore.PlatformStore.UpdateMatch | cli/src/state/platform-store.ts:182-191 | the new state is that of updateMatch |
| PlatformStore.PlatformStore.SetSidebarTab | cli/src/state/platform-store.ts:194-200 | the new state is that of setSidebarTab |
| PlatformStore.PlatformStore.Reset | cli/src/state/platform-store.ts:203-207 | the store returns to the initial state, with an empty revealed set |
| PlatformStore.Find | cli/src/state/platform-store.ts:128 | the search loop finds the first entry with the id |
| Markdown.SwallowedSpan | cli/src/components/markdown.tsx:159-174 | as written, a backtick with no partner ends the loop: a backtick, a space and "*x*" become one text token, and the italic span is lost |
| Markdown.ResumingStep | cli/src/components/markdown.tsx:126-174 | the corrected iteration always advances, and the token it pushes is read from exactly the text it consumes |
| Markdown.ResumingTokensFrom | cli/src/components/markdown.tsx:117-175 | the corrected loop from a position on: an unmatched marker becomes text up to the next marker and the loop goes on; ResumingTokensFromUnparse proves its tokens read back as the rest of the line, ResumesAfterUnmatched gives its step at an unmatched marker, and ResumedSpan its result on the finding's input |
| Markdown.ResumingTokensFromUnparse | cli/src/components/markdown.tsx:126-174 | the corrected loop's tokens read back as the line: nothing dropped or duplicated |
| Markdown.ResumesAfterUnmatched | cli/src/components/markdown.tsx:159-174 | in the corrected loop an unmatched star or backtick is text up to the next marker, and tokenizing goes on from there |
| Markdown.ResumedSpan | cli/src/components/markdown.tsx:147-174 | the corrected loop reads a backtick, a space and "*x*" as the text of the backtick and the space, followed by the italic "x" |

## Left out

- PlanAgent.SanitiseItem: a truthy id that is not a string (a number, an object) is kept as its `String()` text, "7" or "[object Object]", because a plan item's id is a string here, as the source's `as PlanItem[]` cast also claims; the source stores the raw value in the plan and in the result's data.
- Rendering and layout: JSX trees, scrolling, viewport measurement, colours and the theme tables are not modelled. The presentation-only components are not part of this model.
- `cli/src/components/chat.tsx` is not part of this model. Nothing imports it, and its submit and Ctrl+C logic repeats that of `app.tsx`, minus the streaming guard.
- Timers: cursor blink, spinners and `streaming-status.tsx` (whose formatting uses floating-point `toFixed`) are not modelled. The 15 ms placeholder delay is not modelled either: typing the placeholder out is a loop with no delay. The 3 s pending-exit timer is modelled only as the call `ExpirePendingExit` that clears the flag.
- App: an exception while the placeholder reply is typed out is given as a parameter, namely the step at which it is raised and its message. It is not raised by real code.
- App: `handleSubmit` does not await `handleSendMessage`. The model runs the synchronous start of the turn, then clears the input, then finishes the turn. It does not model other events interleaving there.
- Network and I/O are parameters (oracles):
  - the model backend's `streamChat` is a finite script of rounds;
  - the Firecrawl `fetch`;
  - `generateText` and the API-key environment variables;
  - `JSON.parse` and `JSON.stringify` in the plan agent.
- The flavour-word hook, `sonder-api.ts`, the updater, the build script and `index.tsx` are not part of this model.
- `process.exit` is returned as an effect (an `Exit` effect or flag), not executed.
- Zod schemas are written out as explicit checks over a `Json` datatype whose numbers are integers. The text of Zod's validation message is a parameter.
- Regular expressions are written out as scans. `/\s/` is the ECMAScript white-space and line-terminator set.
- `toLowerCase` is ASCII-only.
- Strings are sequences of UTF-16 code units, one `char` each. Surrogate pairs get no special treatment.
- React semantics are not modelled:
  - re-render timing;
  - the stale `messages` snapshot a callback closes over (the turn reads the store as it was before the turn);
  - real concurrency between the stream and the keyboard.
- The turn is sequential. Cancelling is a flag that the current round's script entry records, and every round's streamed chunks arrive before that round's tool calls are announced.
- ChatHandler.HandleSendMessage: the backend script must end the turn within its length (the `Script` requirement). The source places no cap on the number of rounds.
- Fresh ids (`Date.now` and `Math.random`) come from a list of distinct ids given as a parameter. Message timestamps and the clock are parameters, or are not modelled.
- The key handler inside `multiline-input.tsx`, and its copies of the navigation helpers, match `use-input-keyboard.ts` and `text-navigation.ts` binding for binding. They are modelled once, as `InputKeyboard` and `TextNavigation`.
- Markdown: styled spans are produced as tokens and blocks, not drawn. A paragraph or list block carries its text, and `Markdown.Tokens` gives its inline pieces.
- FeedbackIndicator: the `onFeedback` callback is recorded as the list of calls it received.
- Tool-call records: their list belongs to the caller of `useToolExecutor`, which is not part of this model. It is modelled as a list in which an update patches the first record with the id.
- Trie: the nodes live in an arena of records with child maps from characters to node indices, instead of linked objects.
- AppKeyboard: the panel and trie state that the hook receives is assumed well formed (`PanelsOk`, `TriesOk`).
- AppConstants.ContextItem: the source's `label` field is called `caption`, because `label` is a reserved word in Dafny.
- AgentRegistry: `getAgent` is a plain map lookup and is not modelled on its own; `Outcome` performs that lookup.
- PlatformStore: Immer is assumed to have its MapSet plugin enabled. Dates are natural numbers. `activeMachine` and the matching entry of `machines` are separate copies, just as the drafts hold separate objects.
- PlatformStore.UpdateMachine: it does not re-derive `machineStatus`. That matches the source, and `UpdateMachineStatusLags` shows the lag.
- PlatformStore.SetActiveMachine: it does not reset `unreadHintCount`. That matches the source.
- PlatformStore: the fallback in `machine?.status || 'offline'` only applies to a missing machine, because statuses are never empty strings.

## Findings

| source | as written | input that shows it | evidently intended | confidence | as-written member | corrected member |
|---|---|---|---|---|---|---|
| cli/src/components/markdown.tsx:170-173 | when a star or backtick at the current position opens no span, the loop pushes the whole rest of the line as text and stops (the branch's comment says it is for "no markers found", a case that takes the other branch) | a backtick, a space and "*x*": the unmatched backtick swallows the italic "x" | the marker is kept as text up to the next marker and the loop goes on | medium, not executed | Markdown.SwallowedSpan | Markdown.ResumingTokensFrom |

The tokenizer method `Markdown.Tokenize` models the loop as written. The
corrected loop is `Markdown.ResumingTokensFrom`. Three lemmas are proved
about it: `Markdown.ResumingTokensFromUnparse` (the round trip),
`Markdown.ResumesAfterUnmatched` (tokenizing goes on after the marker) and
`Markdown.ResumedSpan` (the example). No other part of the model depends on
the inline tokens.
