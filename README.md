# Brief chat client — a verified Dafny model

Brief is a terminal chat client for OpenAI-compatible endpoints. This project models its
conversation engine and the small deterministic state machines and string helpers of its
terminal interface, and proves what they promise:

- **Token budget** (`TokenCounter`, `ContextTracker`): the four-characters-per-token
  estimate, the word/token conversions, and the context-window lookup that picks the
  longest model-name key contained in the model id.
- **History compaction and paste summarising** (`SummaryService`): the contiguous range of
  messages that is summarised, the splice that replaces it by one summary message, the
  truncation fallback when the summariser fails, and the placeholder rules for pasted text.
- **Conversation and roles** (`ConversationModel`, `Domain`): the builder defaults,
  `addMessage`, and the role wire values with their case-insensitive lookup.
- **Tool-resolution loop** (`ToolLoop`): at most three round trips to the endpoint; the
  provenance rules that decide which stored messages go on the wire; the assistant and
  tool messages each tool round records; and the error paths.
- **Settings** (`Settings`): value resolution under the ENV/CONFIG priority, the summary
  settings, and the transient error banner.
- **Slash commands** (`SlashCommands`, `WeatherSlash`, `LocateSlash`): the token the
  composer is typing, the filtered command list, invocation matching and argument parsing,
  and the texts sent to the model.
- **Palettes and overlays** (`SlashPalette`, `ModelPicker`, `SettingsPalette`,
  `PlacesView`, `OverlayGeometry`): the open/selected/filter state each key or click
  changes, the edit buffer and its cursor, the box geometry and mouse hit-testing.
- **History view** (`Viewport`, `MouseSelect`): scrolling, the visible window, and mouse
  selection over the history lines.
- **Text helpers** (`Theme`, `Places`, `ToolBanner`): padding, centring and ANSI-aware
  truncation, address shortening, and tool display names.
- **Weather tool** (`WeatherTool`): argument normalisation, candidate scoring against the
  place hints, and the choice of the best geocoding result.

Pure Java code is modelled as functions and lemmas. Objects whose fields change in place
are classes whose methods state the new state. Loops are methods proved against a
specification function. The chat endpoint, the summariser, the tools and the JSON
parser/serialiser are function-typed parameters (oracles) that either return a value or
fail. Java `null` is `Option` where the code branches on it, and a thrown exception is a
`Result` error. Java's 32-bit `int` is an unbounded integer here; wrap-around is written
out where it changes a result (`Viewport.ScrollUpAsWritten`, `WeatherTool.Days`), and
elsewhere the model does not wrap, which differs from Java only for values beyond the
`int` range. `JavaString` collects the `String`/`Character` operations
the helpers rely on; a Dafny `char` is one Unicode scalar value, where Java's `char` is one UTF-16 unit. `Keys` holds the key presses and the
selection arithmetic the palettes share. `Wrappers` holds `Option` and `Result`.

When summarising fails and the text already fits the budget, the truncation fallback
returns the text unchanged, without the truncation marker
(`SummaryService.TruncateToTokens`).

## Model

| member | source | states |
|---|---|---|
| Keys.Clamp | src/main/java/com/williamcallahan/chatclient/ui/SlashCommandPalette.java:135-141 | without matches the selection is 0; otherwise it lies in [0, count-1], an index already inside is kept, one above goes to the last and one below to 0 |
| Keys.Moved | src/main/java/com/williamcallahan/chatclient/ui/SlashCommandPalette.java:59-74 | nothing moves without matches; from inside the range the result stays inside; Up/PageUp never move down and move up unless at the top, Up by one; Down/PageDown symmetrically |
| TokenCounter.EstimateTokens | src/main/java/com/williamcallahan/chatclient/service/TokenCounter.java:21-24 | null or empty text estimates to 0; otherwise the result is the least r with 4r at least the length (ceil(length/4)) |
| TokenCounter.EstimateConversation | src/main/java/com/williamcallahan/chatclient/service/TokenCounter.java:29-35 | a null conversation estimates to 0; otherwise the sum over its non-internal messages, and 0 when every message is internal |
| TokenCounter.AllInternalSumZero | src/main/java/com/williamcallahan/chatclient/service/TokenCounter.java:31-34 | a history of internal messages only estimates to 0 |
| TokenCounter.SumEstimatesAppend | src/main/java/com/williamcallahan/chatclient/service/TokenCounter.java:31-34 | the conversation estimate is additive over concatenation of histories |
| TokenCounter.SumEstimatesPush | src/main/java/com/williamcallahan/chatclient/service/TokenCounter.java:31-34 | appending a message adds its estimate, or nothing when it is internal |
| TokenCounter.WordsToTokens | src/main/java/com/williamcallahan/chatclient/service/TokenCounter.java:40-42 | ceil(4w/3), saturating at the bounds of int as the cast of a double does |
| TokenCounter.TokensToWords | src/main/java/com/williamcallahan/chatclient/service/TokenCounter.java:47-49 | floor(3t/4) for t >= 0 and truncation toward zero for negative t, always within int |
| TokenCounter.LineFeeds | src/main/java/com/williamcallahan/chatclient/service/TokenCounter.java:64 | the count is the number of line feeds in the text |
| TokenCounter.CountLines | src/main/java/com/williamcallahan/chatclient/service/TokenCounter.java:62-65 | null or empty text has 0 lines; otherwise one more than its number of line feeds |
| TokenCounter.EstimateExamples | src/main/java/com/williamcallahan/chatclient/service/TokenCounter.java:21-24 | "abcd" is 1 token, "abcde" is 2, null is 0 |
| ContextTracker.TableIsLongestFirst | src/main/java/com/williamcallahan/chatclient/service/ContextTracker.java:15-39 | the lookup table, in the order used, lists keys longest first |
| ContextTracker.TableSizesPositive | src/main/java/com/williamcallahan/chatclient/service/ContextTracker.java:15-33 | every window size in the table is positive |
| ContextTracker.FirstMatch | src/main/java/com/williamcallahan/chatclient/service/ContextTracker.java:53-57 | the first key contained in the model is a longest contained key; none is found exactly when no key is contained |
| ContextTracker.Lookup | src/main/java/com/williamcallahan/chatclient/service/ContextTracker.java:52-57 | the looked-up size is positive |
| ContextTracker.LookupLongest | src/main/java/com/williamcallahan/chatclient/service/ContextTracker.java:36-41 | the size of a longest table key contained in the lower-cased model, or 8192 when no key is contained |
| ContextTracker.GetContextSize | src/main/java/com/williamcallahan/chatclient/service/ContextTracker.java:50-58 | null or blank model gives 8192; otherwise the lookup of the lower-cased model; always positive |
| ContextTracker.TurboLongestMatch | src/main/java/com/williamcallahan/chatclient/service/ContextTracker.java:19-20 | of the keys inside "gpt-4-turbo" the longest is its own, size 128000 |
| ContextTracker.SpecificKeyWins | src/main/java/com/williamcallahan/chatclient/service/ContextTracker.java:19-20 | "gpt-4-turbo" gets 128000, not the 8192 of "gpt-4" |
| ContextTracker.RemainingTokens | src/main/java/com/williamcallahan/chatclient/service/ContextTracker.java:63-67 | max(0, window - estimate): never negative, the window itself for a null conversation |
| ContextTracker.UsagePercent | src/main/java/com/williamcallahan/chatclient/service/ContextTracker.java:84-88 | min(100, floor(100 * used / window)) |
| ContextTracker.Percent | src/main/java/com/williamcallahan/chatclient/service/ContextTracker.java:87 | the capped whole percentage, within [0, 100], 100 exactly when the window is full or overfull |
| SummaryService.TruncateToTokens | src/main/java/com/williamcallahan/chatclient/service/SummaryService.java:235-241 | text within 4 * target characters is unchanged; longer text keeps exactly its first 4 * target characters followed by the truncation marker |
| SummaryService.TargetWords | src/main/java/com/williamcallahan/chatclient/service/SummaryService.java:213 | the word target lies between 0 and the token target |
| SummaryService.SummaryPrompt | src/main/java/com/williamcallahan/chatclient/service/SummaryService.java:215-222 | the prompt begins with the instruction naming the context and ends with the separator and the text |
| SummaryService.SummarizeWithFallback | src/main/java/com/williamcallahan/chatclient/service/SummaryService.java:212-233 | the reply of the summariser when it answers; otherwise the truncated text, and wasTruncated exactly when the summariser failed |
| SummaryService.Summarize | src/main/java/com/williamcallahan/chatclient/service/SummaryService.java:205-207 | the reply of the summariser, or the truncated text when it fails |
| SummaryService.SummaryEnabledByConfig | src/main/java/com/williamcallahan/chatclient/service/SummaryService.java:243-247 | the environment variable can only switch summarising off ("1" does); unset, the configuration decides |
| SummaryService.SummaryTargetTokens | src/main/java/com/williamcallahan/chatclient/service/SummaryService.java:249-259 | a positive number in the environment variable wins; a blank, unparsable or non-positive one falls back to the configured target; the result is positive |
| SummaryService.ContainsLineBreak | src/main/java/com/williamcallahan/chatclient/service/SummaryService.java:92-100 | true exactly when the text holds a line feed or a carriage return |
| SummaryService.UsesPlaceholderIff | src/main/java/com/williamcallahan/chatclient/service/SummaryService.java:72-74 | for non-empty text the placeholder is used exactly when the text has a line break or is longer than 150 characters |
| SummaryService.ProcessPaste | src/main/java/com/williamcallahan/chatclient/service/SummaryService.java:60-90 | empty or null text gives ("", "", false, false, 0); text is kept unsummarised when summarising is off or it fits the target; otherwise it is summarised and labelled "(truncated)" or "(summarized)" by the fallback flag |
| SummaryService.LeadingSystem | src/main/java/com/williamcallahan/chatclient/service/SummaryService.java:269-277 | the length of the leading block of SYSTEM messages |
| SummaryService.SummarizeStart | src/main/java/com/williamcallahan/chatclient/service/SummaryService.java:269-277 | the first non-SYSTEM index, every earlier message being SYSTEM; 0 when all messages are SYSTEM |
| SummaryService.FindSummarizeStart | src/main/java/com/williamcallahan/chatclient/service/SummaryService.java:269-277 | the loop returns the start that SummarizeStart specifies |
| SummaryService.SummarizeEnd | src/main/java/com/williamcallahan/chatclient/service/SummaryService.java:279-282 | max(start, n - 4) |
| SummaryService.TranscriptEntry | src/main/java/com/williamcallahan/chatclient/service/SummaryService.java:160-166 | each message contributes at least its two closing line feeds |
| SummaryService.Transcript | src/main/java/com/williamcallahan/chatclient/service/SummaryService.java:157-169 | the transcript has at least two characters per message |
| SummaryService.TranscriptAppend | src/main/java/com/williamcallahan/chatclient/service/SummaryService.java:157-169 | the transcript of a concatenation is the concatenation of the transcripts |
| SummaryService.TranscriptStep | src/main/java/com/williamcallahan/chatclient/service/SummaryService.java:159-167 | extending the range by one message appends that message's entry |
| SummaryService.ExtractMessagesForSummary | src/main/java/com/williamcallahan/chatclient/service/SummaryService.java:157-169 | the loop builds the transcript of messages [start, end) |
| SummaryService.BuildTrimmedList | src/main/java/com/williamcallahan/chatclient/service/SummaryService.java:186-197 | the result is msgs[..start] + [summary] + msgs[end..] |
| SummaryService.TargetTokens | src/main/java/com/williamcallahan/chatclient/service/SummaryService.java:143-145 | the target never exceeds the source tokens; it is the source itself when that is at most 500, else between 500 and the source, at least source minus the tokens to free, and either exactly 500 or low enough to free the missing tokens plus the 500-token margin |
| SummaryService.SummaryMessage | src/main/java/com/williamcallahan/chatclient/service/SummaryService.java:171-184 | a SYSTEM/SYSTEM message at the given index whose content is the summary label followed by the summary |
| SummaryService.Trim | src/main/java/com/williamcallahan/chatclient/service/SummaryService.java:123-155 | a window with room for the reserve, or a history of at most two messages, is returned as it is; an untrimmed result is the history unchanged and never truncated; a trimmed one was short of the reserve, is no longer than the history, and keeps its last four messages |
| SummaryService.TrimIfNeeded | src/main/java/com/williamcallahan/chatclient/service/SummaryService.java:123-155 | the method returns what Trim describes for the window remainingTokens reports |
| SummaryService.TrimWhen | src/main/java/com/williamcallahan/chatclient/service/SummaryService.java:124-139 | trimming happens exactly when the window is short of the reserve, there are more than two messages and the start lies before n - 4; otherwise the history is returned with both flags false |
| SummaryService.FewMessagesKept | src/main/java/com/williamcallahan/chatclient/service/SummaryService.java:130-139 | a history of at most four messages is never trimmed |
| SummaryService.TrimShape | src/main/java/com/williamcallahan/chatclient/service/SummaryService.java:186-197 | a trimmed history is the leading SYSTEM block, one summary message, then the last four messages, in order, of length n - (end - start) + 1 |
| SummaryService.TrimSummary | src/main/java/com/williamcallahan/chatclient/service/SummaryService.java:147-154 | the summary message sits at the start index, is SYSTEM, and carries the reply or, exactly when the summariser failed, the truncated transcript |
| ConversationModel.Conversation.constructor | src/main/java/com/williamcallahan/chatclient/domain/Conversation.java:22-55 | the builder defaults: version 1, provider LMSTUDIO, CHAT_COMPLETIONS, model "gpt-oss-120b", empty metadata and message list |
| ConversationModel.Conversation.AddMessage | src/main/java/com/williamcallahan/chatclient/domain/Conversation.java:59-62 | exactly one message is appended at the end, the earlier ones are unchanged, updatedAt is the current time and no other field changes |
| Domain.ProviderTag | src/main/java/com/williamcallahan/chatclient/service/SummaryService.java:181 | the provider tag, name().toLowerCase(), is never empty |
| Domain.ProviderTagLower | src/main/java/com/williamcallahan/chatclient/service/SummaryService.java:181 | provider tags are already lower case |
| Domain.RoleValue | src/main/java/com/williamcallahan/domain/Role.java:8-23 | every role has a non-empty wire value |
| Domain.RoleValueLower | src/main/java/com/williamcallahan/domain/Role.java:8-11 | role values are lower case |
| Domain.RoleValueInjective | src/main/java/com/williamcallahan/domain/Role.java:8-11 | distinct roles have distinct values |
| Domain.AllRolesListed | src/main/java/com/williamcallahan/domain/Role.java:28 | Role.values() lists every role |
| Domain.FirstRoleMatching | src/main/java/com/williamcallahan/domain/Role.java:28-32 | the first listed role whose value equals the text ignoring case; none exactly when no role's value does |
| Domain.RoleFromString | src/main/java/com/williamcallahan/domain/Role.java:27-34 | a result matches the text ignoring case; an error exactly when the text is null or matches no role, carrying "Unknown role: " and the text |
| Domain.RoleRoundTrip | src/main/java/com/williamcallahan/domain/Role.java:20-34 | fromString of any case variant of r.getValue() gives r back |
| Settings.EnvPriorityWins | src/main/java/com/williamcallahan/chatclient/Config.java:59-64 | a set, non-blank BRIEF_CONFIG_PRIORITY decides the priority whatever the property says |
| Settings.PriorityFrom | src/main/java/com/williamcallahan/chatclient/Config.java:60-67 | CONFIG exactly when the deciding source (BRIEF_CONFIG_PRIORITY if set and non-blank, else config.priority) reads "config" after trimming, in any letter case; ENV when neither is set |
| Settings.Config.constructor | src/main/java/com/williamcallahan/chatclient/Config.java:24-31 | the loaded properties and the priority they and the environment give; an unreadable file leaves the "Config unreadable" banner stamped with the time |
| Settings.Config.Resolve | src/main/java/com/williamcallahan/chatclient/Config.java:46-57 | the trimmed value of the source the priority prefers, falling back to the other; None exactly when neither is set |
| Settings.OneSourceIgnoresPriority | src/main/java/com/williamcallahan/chatclient/Config.java:52-56 | with only one source set the priority does not change the result |
| Settings.Config.Set | src/main/java/com/williamcallahan/chatclient/Config.java:77-80 | stores the trimmed value, null as ""; a failed save sets the "Settings not saved" banner at the current time |
| Settings.FlagTextReads | src/main/java/com/williamcallahan/chatclient/Config.java:92-100 | the word setSummaryDisabled writes survives the trim and reads as "true" exactly when disabling |
| Settings.Config.IsSummaryEnabled | src/main/java/com/williamcallahan/chatclient/Config.java:92-95 | enabled when summary.disabled is absent or reads "false"; disabled when it reads "true" |
| Settings.Config.SetSummaryDisabled | src/main/java/com/williamcallahan/chatclient/Config.java:97-100 | stores "true" or "false" under summary.disabled and changes no other property; afterwards summarising is enabled exactly when not disabled; a failed write shows the not-saved banner stamped now, a successful one leaves the banner alone |
| Settings.Config.GetSummaryTargetTokens | src/main/java/com/williamcallahan/chatclient/Config.java:103-112 | the parsed positive value, else 8000; always a positive int |
| Settings.Config.SetSummaryTargetTokens | src/main/java/com/williamcallahan/chatclient/Config.java:122-125 | stores the decimal text under summary.target_tokens and changes no other property; a positive value written reads back as itself, a non-positive one as 8000; a failed write shows the not-saved banner stamped now, a successful one leaves the banner alone |
| Settings.Config.TransientError | src/main/java/com/williamcallahan/chatclient/Config.java:129-135 | no banner, or one older than 10000 ms, gives None and clears it; otherwise the banner is returned and kept |
| ToolLoop.ArgumentsJson | src/main/java/com/williamcallahan/service/ToolExecutor.java:201-208 | no arguments serialise to "{}" |
| ToolLoop.WireCalls | src/main/java/com/williamcallahan/service/ToolExecutor.java:158-175 | one wire call per stored call, in order, with the same id and name |
| ToolLoop.ShouldSkip | src/main/java/com/williamcallahan/service/ToolExecutor.java:130-137 | a message with content is kept when it is the last one or not INTERNAL; an INTERNAL message other than the last is always skipped; any other skipped message has no content, no tool calls and is not a tool response |
| ToolLoop.AppendMessage | src/main/java/com/williamcallahan/service/ToolExecutor.java:139-184 | a stored message becomes at most one wire message |
| ToolLoop.BlankContentOrEmpty | src/main/java/com/williamcallahan/service/ToolExecutor.java:186-189 | the content read as "" when null is blank exactly when the message has no content |
| ToolLoop.EmitIffSent | src/main/java/com/williamcallahan/service/ToolExecutor.java:123-184 | the skip rule and appendMessage send a message, as exactly one wire message, exactly when it has something to send, is not a non-final internal message, a USER message is USER_INPUT, an ASSISTANT message is LLM_OUTPUT and a TOOL message has an id and non-blank content |
| ToolLoop.InternalUserNeverSent | src/main/java/com/williamcallahan/service/ToolExecutor.java:143 | an INTERNAL user message is never sent, not even as the last message |
| ToolLoop.WirePrefix | src/main/java/com/williamcallahan/service/ToolExecutor.java:123-126 | the wire form of the first n messages has at most n messages |
| ToolLoop.WirePrefixCount | src/main/java/com/williamcallahan/service/ToolExecutor.java:123-126 | the wire history has exactly one message per stored message that is sent |
| ToolLoop.PositionsStep | src/main/java/com/williamcallahan/service/ToolExecutor.java:123-126 | one more position is counted exactly when it is sent |
| ToolLoop.ToolExecutor.constructor | src/main/java/com/williamcallahan/service/ToolExecutor.java:28-31 | the executor keeps the endpoint and the tools it is given |
| ToolLoop.ToolExecutor.ToolNames | src/main/java/com/williamcallahan/service/ToolExecutor.java:35-37 | one tool definition per tool, in order |
| ToolLoop.ToolExecutor.ParseArgs | src/main/java/com/williamcallahan/service/ToolExecutor.java:195-199 | null or blank text gives no arguments; otherwise the parsed map, or an error "Invalid JSON: " followed by the text |
| ToolLoop.ToolExecutor.Functions | src/main/java/com/williamcallahan/service/ToolExecutor.java:55-57 | the filter keeps at most as many calls as it is given |
| ToolLoop.ToolExecutor.FunctionsKeepsFunctions | src/main/java/com/williamcallahan/service/ToolExecutor.java:55-57 | exactly the function calls are kept |
| ToolLoop.ToolExecutor.DomainCalls | src/main/java/com/williamcallahan/service/ToolExecutor.java:109-113 | succeeds exactly when every argument string parses, giving one PENDING call per function call with the same id and name |
| ToolLoop.ToolExecutor.DomainCallsFirstError | src/main/java/com/williamcallahan/service/ToolExecutor.java:112 | a failure carries the exception of the first call whose arguments do not parse |
| ToolLoop.ToolExecutor.FindTool | src/main/java/com/williamcallahan/service/ToolExecutor.java:85 | a tool found carries the name; none is found exactly when no tool does |
| ToolLoop.ToolExecutor.FindToolFirst | src/main/java/com/williamcallahan/service/ToolExecutor.java:85 | the first tool carrying the name is the one found |
| ToolLoop.ToolExecutor.ToolResult | src/main/java/com/williamcallahan/service/ToolExecutor.java:85-93 | an unknown tool name gives {"error": "Unknown tool: " + name}; any result is either the value a tool of that name returned or a one-key "error" object |
| ToolLoop.ToolExecutor.ToolResultErrors | src/main/java/com/williamcallahan/service/ToolExecutor.java:85-93 | an unknown tool gives {"error": "Unknown tool: " + name}; otherwise the first tool of that name runs, and a failure gives {"error": message or "Error"} |
| ToolLoop.ToolExecutor.AssistantRecord | src/main/java/com/williamcallahan/service/ToolExecutor.java:68-76 | the recorded message is ASSISTANT/LLM_OUTPUT at the next index and holds the converted calls |
| ToolLoop.ToolExecutor.ToolRecord | src/main/java/com/williamcallahan/service/ToolExecutor.java:99-103 | the recorded message is TOOL/TOOL_OUTPUT at the next index and carries the call's id |
| ToolLoop.ToolExecutor.ExecuteAll | src/main/java/com/williamcallahan/service/ToolExecutor.java:61-107 | one TOOL message per call is appended after the history, which is kept; it cannot fail when every argument parses |
| ToolLoop.ToolExecutor.ExecuteAllRecords | src/main/java/com/williamcallahan/service/ToolExecutor.java:61-103 | the i-th new message is the TOOL message at index n + i answering the i-th call |
| ToolLoop.ToolExecutor.Step | src/main/java/com/williamcallahan/service/ToolExecutor.java:42-63 | a round only ever appends to the history, and appends something when the loop continues |
| ToolLoop.ToolExecutor.ToolRound | src/main/java/com/williamcallahan/service/ToolExecutor.java:54-63 | answering a reply's tool calls only appends to the history, and appends something when the loop continues |
| ToolLoop.ToolExecutor.Run | src/main/java/com/williamcallahan/service/ToolExecutor.java:41-65 | the loop calls the endpoint at least once and at most once per round, and only appends to the history |
| ToolLoop.ToolExecutor.ChooseModel | src/main/java/com/williamcallahan/service/ToolExecutor.java:117 | a non-blank override names the model; otherwise the conversation's default model |
| ToolLoop.ToolExecutor.BuildWire | src/main/java/com/williamcallahan/service/ToolExecutor.java:120-127 | the loop builds the wire form of the stored history |
| ToolLoop.ToolExecutor.ExecuteAndSave | src/main/java/com/williamcallahan/service/ToolExecutor.java:78-107 | one call: the conversation ends as ExecuteAll describes, and the request gains the tool result |
| ToolLoop.ToolExecutor.ExecuteCalls | src/main/java/com/williamcallahan/service/ToolExecutor.java:61-63 | the calls of one round, in order: the conversation ends as ExecuteAll describes |
| ToolLoop.ToolExecutor.Round | src/main/java/com/williamcallahan/service/ToolExecutor.java:42-63 | one round against the conversation ends as Step describes |
| ToolLoop.ToolExecutor.Respond | src/main/java/com/williamcallahan/service/ToolExecutor.java:33-66 | the reply and the recorded history are those of three rounds of Run from the wire form of the stored history |
| ToolLoop.ToolExecutor.RunUnfold | src/main/java/com/williamcallahan/service/ToolExecutor.java:41-64 | a finished round ends the loop after one call; otherwise the remaining rounds continue from the new request and history |
| ToolLoop.ToolExecutor.RunZero | src/main/java/com/williamcallahan/service/ToolExecutor.java:65 | with no rounds left the loop returns the fixed error text, recording nothing |
| ToolLoop.ToolExecutor.FinalReply | src/main/java/com/williamcallahan/service/ToolExecutor.java:43-52 | no choices gives ""; a reply without tool calls gives its text (or ""); either after one call, with nothing recorded |
| ToolLoop.ToolExecutor.AlwaysToolsExhausts | src/main/java/com/williamcallahan/service/ToolExecutor.java:23-65 | an endpoint that always asks for tools exhausts the loop: as many calls as rounds, at least one new message per round, and "ERROR: tool loop did not resolve to a final assistant message." |
| ToolLoop.ToolExecutor.ToolsRunStep | src/main/java/com/williamcallahan/service/ToolExecutor.java:41-64 | a round asking for tools is one call followed by the remaining rounds from a longer history |
| ToolLoop.ToolExecutor.ToolRoundContinues | src/main/java/com/williamcallahan/service/ToolExecutor.java:54-63 | a reply asking for tools whose arguments parse continues the loop with at least one new message |
| ToolLoop.ToolExecutor.ToolsThenText | src/main/java/com/williamcallahan/service/ToolExecutor.java:23-65 | an endpoint that asks for tools once and then answers with text: two endpoint calls, that text as the reply, and a history of the old messages, one ASSISTANT message holding the calls and one TOOL message per call |
| ToolLoop.ToolExecutor.ExecuteAllWire | src/main/java/com/williamcallahan/service/ToolExecutor.java:61-103 | executing the calls adds exactly one tool result per call to the request |
| ToolLoop.ToolExecutor.ToolRoundRecords | src/main/java/com/williamcallahan/service/ToolExecutor.java:59-103 | a tool round appends one ASSISTANT/LLM_OUTPUT message holding the function calls as PENDING, same ids in order, then one TOOL message per call answering its id |
| ToolLoop.ToolExecutor.ToolRoundShape | src/main/java/com/williamcallahan/service/ToolExecutor.java:59-63 | the same record for the tool-answering part of a round |
| ToolLoop.ToolExecutor.RecordedParts | src/main/java/com/williamcallahan/service/ToolExecutor.java:59-63 | the parts of a recorded round make up the round's record |
| ToolLoop.ToolExecutor.ToolRoundOk | src/main/java/com/williamcallahan/service/ToolExecutor.java:59-63 | when every call parses the round continues with the history ExecuteAll builds |
| ToolLoop.ToolExecutor.LastOfPrefix | src/main/java/com/williamcallahan/service/ToolExecutor.java:71 | the message appended after the history is the assistant record |
| ToolLoop.ToolExecutor.MalformedArgumentsThrow | src/main/java/com/williamcallahan/service/ToolExecutor.java:70-113 | an argument string that does not parse escapes respond as "Invalid JSON: ..." for the first such call, after one endpoint call and before anything of that round is recorded |
| SlashCommands.Invokes | src/main/java/com/williamcallahan/chatclient/ui/slash/SlashCommands.java:72-74 | a command without a name is never invoked; the line is at least as long as the name, and exactly as long for the commands that take no arguments; a command with a lower-case name is invoked by its own name |
| SlashCommands.AnyCaseBlind | src/main/java/com/williamcallahan/chatclient/ui/slash/ClearSlashCommand.java:20-22 | a command that ignores case answers every case variant of a line alike |
| SlashCommands.ClearAnyCase | src/main/java/com/williamcallahan/chatclient/ui/slash/ClearSlashCommand.java:20-22 | "/clear" answers "/CLEAR" and "/Clear" but not "/clear x"; "/new" answers "/new" but not "/NEW" |
| SlashCommands.QuitExact | src/main/java/com/williamcallahan/chatclient/ui/slash/SlashCommands.java:60-79 | the quit command answers exactly the line "/quit" and quits |
| SlashCommands.BeforeSpace | src/main/java/com/williamcallahan/chatclient/ui/slash/SlashCommands.java:54-56 | the result is the longest space-free prefix of the text: the whole text or the part before its first space |
| SlashCommands.SlashTokenPrefix | src/main/java/com/williamcallahan/chatclient/ui/slash/SlashCommands.java:50-58 | a token exactly when the text starts with "/" after leading whitespace; the token is the trimmed text after "/" up to the first space and holds no space |
| SlashCommands.ListedFor | src/main/java/com/williamcallahan/chatclient/ui/slash/SlashCommands.java:26-34 | only commands whose name after "/" starts with the prefix ignoring case are listed, no more than the registry holds |
| SlashCommands.ListedForAppend | src/main/java/com/williamcallahan/chatclient/ui/slash/SlashCommands.java:28-33 | listing distributes over concatenation, so registry order is kept |
| SlashCommands.ListedForMembers | src/main/java/com/williamcallahan/chatclient/ui/slash/SlashCommands.java:28-33 | a command is listed exactly when it is in the registry and its name matches the prefix |
| SlashCommands.ComposerMatches | src/main/java/com/williamcallahan/chatclient/ui/slash/SlashCommands.java:21-35 | no slash token lists nothing; a bare "/" lists every command; otherwise a sub-list of the registry |
| SlashCommands.ListCommands | src/main/java/com/williamcallahan/chatclient/ui/slash/SlashCommands.java:26-34 | the filtering loop builds exactly the listing, in registry order |
| SlashCommands.FilterForComposer | src/main/java/com/williamcallahan/chatclient/ui/slash/SlashCommands.java:21-35 | filterForComposer returns exactly the composer's listing |
| SlashCommands.FirstInvoked | src/main/java/com/williamcallahan/chatclient/ui/slash/SlashCommands.java:40-43 | the command found is in the registry, is invoked by the line, and no earlier command is; none is found exactly when no command is invoked |
| SlashCommands.MatchInvocation | src/main/java/com/williamcallahan/chatclient/ui/slash/SlashCommands.java:37-44 | null input finds nothing; otherwise the first command the trimmed line invokes |
| WeatherSlash.CommandInvocation | src/main/java/com/williamcallahan/chatclient/ui/slash/WeatherSlashCommand.java:22-26 | the command is invoked exactly by "/weather" or by "/weather " followed by anything |
| WeatherSlash.RunLength | src/main/java/com/williamcallahan/chatclient/ui/slash/WeatherSlashCommand.java:80 | the leading run of non-whitespace characters: none of them is whitespace and it ends at whitespace or at the end |
| WeatherSlash.Words | src/main/java/com/williamcallahan/chatclient/ui/slash/WeatherSlashCommand.java:80 | every token of the whitespace split is non-empty and holds no whitespace |
| WeatherSlash.LocationWords | src/main/java/com/williamcallahan/chatclient/ui/slash/WeatherSlashCommand.java:84-86 | the location words are exactly the tokens that are neither --json/-j (any case) nor other "--" options |
| WeatherSlash.ArgumentText | src/main/java/com/williamcallahan/chatclient/ui/slash/WeatherSlashCommand.java:73-77 | arguments exist exactly when the trimmed line starts with "/weather"; they are the rest of the line, trimmed |
| WeatherSlash.ParseArgs | src/main/java/com/williamcallahan/chatclient/ui/slash/WeatherSlashCommand.java:72-91 | no arguments give an empty location and no flag; otherwise the flag is set exactly when a token is --json or -j ignoring case, and the location is the trimmed join of the location words |
| WeatherSlash.JoinLocation | src/main/java/com/williamcallahan/chatclient/ui/slash/WeatherSlashCommand.java:83-89 | the builder loop yields the location words separated by single spaces |
| WeatherSlash.LocationWordsAppend | src/main/java/com/williamcallahan/chatclient/ui/slash/WeatherSlashCommand.java:84-89 | filtering tokens distributes over concatenation |
| WeatherSlash.JoinSnoc | src/main/java/com/williamcallahan/chatclient/ui/slash/WeatherSlashCommand.java:87-88 | appending a word adds a space before it unless it is the first |
| WeatherSlash.LocationStep | src/main/java/com/williamcallahan/chatclient/ui/slash/WeatherSlashCommand.java:84-89 | each token adds itself to the location exactly when it is a location word |
| WeatherSlash.Location | src/main/java/com/williamcallahan/chatclient/ui/slash/WeatherSlashCommand.java:37-58 | a blank parsed location falls back to "San Francisco"; otherwise the parsed location |
| WeatherSlash.ToUserRequest | src/main/java/com/williamcallahan/chatclient/ui/slash/WeatherSlashCommand.java:56-60 | the request is "What is the current weather and 5-day forecast for " + location + "?" |
| WeatherSlash.PromptBody | src/main/java/com/williamcallahan/chatclient/ui/slash/WeatherSlashCommand.java:39-49 | the prompt starts with the /weather header line and ends with the tool rules |
| WeatherSlash.ToLlmPrompt | src/main/java/com/williamcallahan/chatclient/ui/slash/WeatherSlashCommand.java:35-54 | the trimmed prompt ends with the "Return only the JSON tool output." line exactly when the JSON flag is set |
| WeatherSlash.PromptTrimmed | src/main/java/com/williamcallahan/chatclient/ui/slash/WeatherSlashCommand.java:53 | trimming removes only the final newline |
| LocateSlash.CommandInvocation | src/main/java/com/williamcallahan/chatclient/ui/slash/LocateSlashCommand.java:31-36 | the command is invoked exactly when the lower-cased line is "/locate" or starts with "/locate " |
| LocateSlash.QueryText | src/main/java/com/williamcallahan/chatclient/ui/slash/LocateSlashCommand.java:101-105 | a query exists exactly when the trimmed line starts with "/locate" ignoring case; it is the rest, trimmed |
| LocateSlash.Unquote | src/main/java/com/williamcallahan/chatclient/ui/slash/LocateSlashCommand.java:107-109 | one pair of surrounding double quotes is removed when present; otherwise the text is unchanged |
| LocateSlash.ParseQuery | src/main/java/com/williamcallahan/chatclient/ui/slash/LocateSlashCommand.java:101-111 | "" unless the line starts with /locate; otherwise the unquoted query |
| LocateSlash.ToUserRequest | src/main/java/com/williamcallahan/chatclient/ui/slash/LocateSlashCommand.java:57-63 | a blank query asks "Find a place or location for me."; otherwise "Find " + query + " for me." |
| LocateSlash.QueryPart | src/main/java/com/williamcallahan/chatclient/ui/slash/LocateSlashCommand.java:73-76 | the part after the header starts with the Query line exactly when the query is not blank |
| LocateSlash.ToLlmPrompt | src/main/java/com/williamcallahan/chatclient/ui/slash/LocateSlashCommand.java:68-99 | the trimmed prompt is the header, the optional Query line, a blank line and the tool guide, with nothing trimmed away |
| LocateSlash.QueryLineIffNonBlank | src/main/java/com/williamcallahan/chatclient/ui/slash/LocateSlashCommand.java:73-75 | the prompt holds a Query line right after the header exactly when the query is not blank |
| SlashPalette.ArgumentsOf | src/main/java/com/williamcallahan/chatclient/ui/SlashCommandPalette.java:153-158 | no arguments unless the left-stripped composer starts with "/" and holds a space |
| SlashPalette.FillCommand | src/main/java/com/williamcallahan/chatclient/ui/SlashCommandPalette.java:149-166 | a null or blank name leaves the composer alone; otherwise the name followed by " " + the existing arguments, or by a single space (Tab) or nothing (Enter) when there are none |
| SlashPalette.Completed | src/main/java/com/williamcallahan/chatclient/ui/SlashCommandPalette.java:76-88 | with no matches the composer is unchanged; Tab always, Enter only while the trimmed composer is "/" or a space-free slash token, fills in the selected match clamped to the matches; otherwise unchanged |
| SlashPalette.SubmitText | src/main/java/com/williamcallahan/chatclient/ui/SlashCommandPalette.java:90-91 | Enter submits the trimmed composer, or nothing exactly when it is empty |
| SlashPalette.SlashCommandPalette.constructor | src/main/java/com/williamcallahan/chatclient/ui/SlashCommandPalette.java:20-21 | a new palette is closed with selection 0 |
| SlashPalette.SlashCommandPalette.Close | src/main/java/com/williamcallahan/chatclient/ui/SlashCommandPalette.java:27-30 | closing clears open and resets the selection |
| SlashPalette.SlashCommandPalette.UpdateFromComposer | src/main/java/com/williamcallahan/chatclient/ui/SlashCommandPalette.java:118-133 | the palette opens, keeping its selection, exactly when the left-stripped composer starts with "/" and has no space; otherwise it closes |
| SlashPalette.SlashCommandPalette.ClampSelection | src/main/java/com/williamcallahan/chatclient/ui/SlashCommandPalette.java:135-141 | the selection is clamped to the matches, 0 when there are none; open is kept |
| SlashPalette.SlashCommandPalette.OpenFromMouse | src/main/java/com/williamcallahan/chatclient/ui/SlashCommandPalette.java:32-38 | an open palette is left as it is; a closed one sets the composer to "/" and opens on all commands; handled either way |
| SlashPalette.SlashCommandPalette.Retype | src/main/java/com/williamcallahan/chatclient/ui/SlashCommandPalette.java:94-97 | after the composer takes the key, open follows the new text and the selection is clamped to its matches |
| SlashPalette.SlashCommandPalette.Navigate | src/main/java/com/williamcallahan/chatclient/ui/SlashCommandPalette.java:59-74 | Up/Down move the selection by 1 and PageUp/PageDown by 5, within the matches; nothing moves without matches |
| SlashPalette.SlashCommandPalette.Complete | src/main/java/com/williamcallahan/chatclient/ui/SlashCommandPalette.java:76-89 | Tab or Enter leaves the composer as Completed says and closes the palette |
| SlashPalette.SlashCommandPalette.KeyWhileOpen | src/main/java/com/williamcallahan/chatclient/ui/SlashCommandPalette.java:51-98 | on an open palette: Escape closes; navigation moves within the clamped matches; Tab completes and closes; Enter completes, closes and submits the trimmed text; any other key goes to the composer and reopens or closes the palette |
| SlashPalette.SlashCommandPalette.Update | src/main/java/com/williamcallahan/chatclient/ui/SlashCommandPalette.java:40-99 | while waiting nothing is handled or changed; a closed palette handles only a single "/" rune, by typing it; an open palette reacts as KeyWhileOpen; an open palette's selection always lies within the matches |
| SlashPalette.SlashCommandPalette.Click | src/main/java/com/williamcallahan/chatclient/ui/SlashCommandPalette.java:101-116 | a closed palette ignores clicks; an open one closes, submitting the clamped match's name unless it is null or blank, and nothing when there are no matches |
| SlashPalette.TestCommandsListed | src/test/java/com/williamcallahan/chatclient/ui/SlashCommandPaletteTest.java:46-49 | with the composer "/weather San Francisco" the matches are only the /weather command |
| SlashPalette.ClickSubmitsCommandNameOnly | src/test/java/com/williamcallahan/chatclient/ui/SlashCommandPaletteTest.java:42-55 | opening from the mouse, then clicking item 0 with arguments typed, submits exactly "/weather" |
| ModelPicker.Keep | src/main/java/com/williamcallahan/chatclient/ui/ModelPalette.java:44-47 | the kept ids are exactly the choices containing the filter ignoring case, no more than there are choices |
| ModelPicker.EmptyFilterKeepsAll | src/main/java/com/williamcallahan/chatclient/ui/ModelPalette.java:43-47 | the empty-filter shortcut returns what filtering by "" would: every choice |
| ModelPicker.TypingNarrows | src/main/java/com/williamcallahan/chatclient/ui/ModelPalette.java:42-96 | an id listed for a longer filter is listed for its prefix: typing only narrows the list, erasing only widens it |
| ModelPicker.KeptPasses | src/main/java/com/williamcallahan/chatclient/ui/ModelPalette.java:46 | every kept id is a choice that passes the filter |
| ModelPicker.ModelPalette.constructor | src/main/java/com/williamcallahan/chatclient/ui/ModelPalette.java:20-23 | a new palette is closed, with no choices and no filter |
| ModelPicker.ModelPalette.Open | src/main/java/com/williamcallahan/chatclient/ui/ModelPalette.java:29-34 | opening sets the choices, selection 0 and an empty filter, so every choice is listed |
| ModelPicker.ModelPalette.Close | src/main/java/com/williamcallahan/chatclient/ui/ModelPalette.java:36-40 | closing clears open, the selection and the filter, keeping the choices |
| ModelPicker.ModelPalette.Update | src/main/java/com/williamcallahan/chatclient/ui/ModelPalette.java:50-101 | a closed palette handles nothing; Escape closes; with matches, navigation stays within them and Enter returns the selected id and closes; Backspace/Delete drop the filter's last character and a printable rune press extends it, both resetting the selection; the selection always indexes a listed id (so Enter never reads past the list) |
| ModelPicker.ModelPalette.Click | src/main/java/com/williamcallahan/chatclient/ui/ModelPalette.java:103-114 | a closed palette ignores clicks; an open one closes and returns the match at the clamped index, or nothing without matches |
| SettingsPalette.Description | src/main/java/com/williamcallahan/chatclient/ui/ConfigPalette.java:34-38 | a null or blank value shows as "(not set)", any other value as itself |
| SettingsPalette.MaskSensitive | src/main/java/com/williamcallahan/chatclient/ui/ConfigPalette.java:179-183 | a blank secret shows as "(not set)", one of at most 8 characters as "****", a longer one as its first four and last four characters around "****" |
| SettingsPalette.MaskRevealsAtMostEight | src/main/java/com/williamcallahan/chatclient/ui/ConfigPalette.java:179-183 | a masked secret is at most 12 characters; a short one reveals none of its characters and a long one reveals at most eight of them |
| SettingsPalette.NullToNotSet | src/main/java/com/williamcallahan/chatclient/ui/ConfigPalette.java:185-187 | a null or blank value reads "(not set)", any other value itself |
| SettingsPalette.ToggleNext | src/main/java/com/williamcallahan/chatclient/ui/ConfigPalette.java:224-226 | a toggle writes "disabled" exactly when the row reads "enabled" ignoring case, and "enabled" otherwise |
| SettingsPalette.SummaryLabel | src/main/java/com/williamcallahan/chatclient/ui/ConfigPalette.java:158-159 | the summarisation row reads "enabled" or "disabled", and passing that label back to its setter disables summarisation exactly when it was disabled |
| SettingsPalette.SummaryToggleFlips | src/main/java/com/williamcallahan/chatclient/ui/ConfigPalette.java:224-228 | toggling the summarisation row switches summarisation to the other state |
| SettingsPalette.ToggleTwice | src/main/java/com/williamcallahan/chatclient/ui/ConfigPalette.java:224-226 | toggling twice from "enabled" or "disabled" comes back to it |
| SettingsPalette.LabelsDiffer | src/main/java/com/williamcallahan/chatclient/ui/ConfigPalette.java:224-226 | "enabled" and "disabled" differ ignoring case, and each equals itself |
| SettingsPalette.Prefill | src/main/java/com/williamcallahan/chatclient/ui/ConfigPalette.java:103-110 | an edit of a secret starts empty; any other item starts with its value unless that is null or blank |
| SettingsPalette.EditStep | src/main/java/com/williamcallahan/chatclient/ui/ConfigPalette.java:254-299 | an editing key keeps the cursor within the buffer: Backspace/Delete remove the character before the cursor, a printable rune press inserts the runes at the cursor and moves past them, Left/Right/Home/End move only the cursor, and other keys change nothing |
| SettingsPalette.RemoveChar | src/main/java/com/williamcallahan/chatclient/ui/ConfigPalette.java:309 | the character is no longer present |
| SettingsPalette.Cleaned | src/main/java/com/williamcallahan/chatclient/ui/ConfigPalette.java:309 | the pasted text loses every line break |
| SettingsPalette.PasteInsertsPrintable | src/main/java/com/williamcallahan/chatclient/ui/ConfigPalette.java:309-315 | removing line breaks before keeping characters at or above 32 keeps the same characters as keeping them directly |
| SettingsPalette.ConfigPalette.constructor | src/main/java/com/williamcallahan/chatclient/ui/ConfigPalette.java:59-68 | a new palette is closed and not editing, with no items and an empty buffer |
| SettingsPalette.ConfigPalette.Open | src/main/java/com/williamcallahan/chatclient/ui/ConfigPalette.java:78-85 | opening shows the items from the configuration, first row selected, not editing |
| SettingsPalette.ConfigPalette.Close | src/main/java/com/williamcallahan/chatclient/ui/ConfigPalette.java:87-92 | closing clears open, the selection and the editing state |
| SettingsPalette.ConfigPalette.StartEditing | src/main/java/com/williamcallahan/chatclient/ui/ConfigPalette.java:100-112 | editing starts on the item with the prefilled buffer and the cursor at its end |
| SettingsPalette.ConfigPalette.CancelEditing | src/main/java/com/williamcallahan/chatclient/ui/ConfigPalette.java:114-119 | editing stops with an empty buffer and the cursor at 0 |
| SettingsPalette.ConfigPalette.SaveEditing | src/main/java/com/williamcallahan/chatclient/ui/ConfigPalette.java:121-127 | the item's setter receives the trimmed buffer and the items are re-read; editing stops either way |
| SettingsPalette.ConfigPalette.InsertAtCursor | src/main/java/com/williamcallahan/chatclient/ui/ConfigPalette.java:290-294 | the characters go in at the cursor, in order, and the cursor moves past them |
| SettingsPalette.ConfigPalette.HandleEditingKey | src/main/java/com/williamcallahan/chatclient/ui/ConfigPalette.java:241-300 | Escape cancels the edit; Enter saves it; any other key edits the buffer as EditStep says |
| SettingsPalette.ConfigPalette.InsertPrintable | src/main/java/com/williamcallahan/chatclient/ui/ConfigPalette.java:310-315 | the characters at or above 32 go in at the cursor, in order, and the cursor moves past them |
| SettingsPalette.ConfigPalette.HandlePaste | src/main/java/com/williamcallahan/chatclient/ui/ConfigPalette.java:306-317 | handled exactly while editing and given text: the printable characters without line breaks go in at the cursor; otherwise nothing changes |
| SettingsPalette.ConfigPalette.Update | src/main/java/com/williamcallahan/chatclient/ui/ConfigPalette.java:189-239 | a closed palette handles nothing; while editing, Escape cancels the edit, Enter writes the trimmed buffer to the edited item and re-reads the items, and any other key edits the buffer and cursor as EditStep says; otherwise Escape closes; navigation stays within the items; Space toggles an on/off row; Enter starts editing an editable row; any other key changes nothing |
| SettingsPalette.ConfigPalette.Click | src/main/java/com/williamcallahan/chatclient/ui/ConfigPalette.java:319-344 | a closed palette ignores clicks and an editing one swallows them; no items close the palette; otherwise the clamped row is selected, and toggled when it is an on/off row or edited when it is editable |
| PlacesView.ListMove | src/main/java/com/williamcallahan/chatclient/ui/maps/PlacesOverlay.java:136-163 | from a valid selection the list's navigation stays valid; End goes to the last place of a non-empty list and Home to 0 |
| PlacesView.ListMoveAgreesWithPalettes | src/main/java/com/williamcallahan/chatclient/ui/maps/PlacesOverlay.java:136-153 | inside a non-empty list the arrow and page keys move the selection exactly as the palettes' navigation does |
| PlacesView.PlacesOverlay.constructor | src/main/java/com/williamcallahan/chatclient/ui/maps/PlacesOverlay.java:22-28 | a new overlay is closed, out of input mode, with no results, an empty search box and no detail view |
| PlacesView.PlacesOverlay.OpenForInput | src/main/java/com/williamcallahan/chatclient/ui/maps/PlacesOverlay.java:39-47 | an open, empty search box over an empty list, selection 0 and no detail view |
| PlacesView.PlacesOverlay.Open | src/main/java/com/williamcallahan/chatclient/ui/maps/PlacesOverlay.java:50-58 | the overlay opens on the results of the query, a null query or null results reading as empty, selection 0 |
| PlacesView.PlacesOverlay.Close | src/main/java/com/williamcallahan/chatclient/ui/maps/PlacesOverlay.java:60-65 | closing leaves input and detail mode and empties the search box, keeping the results and the selection |
| PlacesView.PlacesOverlay.SelectedPlace | src/main/java/com/williamcallahan/chatclient/ui/maps/PlacesOverlay.java:71-80 | the place under the selection, or none exactly when the selection is outside the list; with the overlay's invariant, none exactly when the list is empty |
| PlacesView.PlacesOverlay.AppendPrintable | src/main/java/com/williamcallahan/chatclient/ui/maps/PlacesOverlay.java:214-222 | the rune press's characters at or above 32 are appended, in order |
| PlacesView.PlacesOverlay.HandleInputMode | src/main/java/com/williamcallahan/chatclient/ui/maps/PlacesOverlay.java:189-233 | Escape closes; Enter submits the trimmed text as a search unless it is empty; Backspace drops the last character; runes append their printable characters; Space appends a space; other keys change nothing; the list, the query and the selection are kept (the effect InputKeyEffect names) |
| PlacesView.PlacesOverlay.Update | src/main/java/com/williamcallahan/chatclient/ui/maps/PlacesOverlay.java:110-187 | a closed overlay handles nothing; in input mode every key is handled with the effect HandleInputMode ensures (InputKeyEffect: Escape closes, Enter searches for the trimmed text unless it is empty, Backspace, runes and Space edit the search box, other keys change nothing); a detail view is left by Escape or Backspace and swallows other keys; on the list Escape closes, navigation moves as ListMove, Enter returns the selected place, Tab opens its detail view; the selection always names a listed place or is 0 |
| OverlayGeometry.Layout.VisibleItemCount | src/main/java/com/williamcallahan/ui/PaletteOverlay.java:139-144 | no items are visible without items or when the window starts past them; otherwise the smaller of the window size and the items left, never more than the window holds |
| OverlayGeometry.Layout.ItemIndexAt | src/main/java/com/williamcallahan/ui/PaletteOverlay.java:153-167 | a hit exactly when the position lies in the item rows, within the inner width, and on an existing item; the hit is the window's first item plus the row offset |
| OverlayGeometry.RenderLayout | src/main/java/com/williamcallahan/ui/PaletteOverlay.java:34-50 | no box exactly when the screen is under 20 columns or 10 rows; otherwise a box 24 to 64 wide with 1 to innerHeight-9 item rows, lying within the screen, scrolled only when the items overflow it and never past their end |
| OverlayGeometry.SelectionVisible | src/main/java/com/williamcallahan/ui/PaletteOverlay.java:139-144 | the window always shows the selected item |
| OverlayGeometry.ItemRowsRoundTrip | src/main/java/com/williamcallahan/ui/PaletteOverlay.java:135-167 | each filled item row, one column in from the box edge, maps back to its item and lies inside the box |
| OverlayGeometry.HitInsideBox | src/main/java/com/williamcallahan/ui/PaletteOverlay.java:146-167 | every hit lies inside the box and on a visible item |
| OverlayGeometry.FirstItemRowIsItemZero | src/test/java/com/williamcallahan/ui/PaletteOverlayTest.java:19-28 | two items on a 60 by 20 screen with the divider on row 10: the first item row, one column in, is item 0 |
| OverlayGeometry.Painted | src/main/java/com/williamcallahan/ui/PaletteOverlay.java:111-118 | the screen keeps its length; rows the overlay covers take its lines, all other rows are unchanged; no overlay changes nothing |
| OverlayGeometry.Apply | src/main/java/com/williamcallahan/ui/PaletteOverlay.java:111-118 | painting in place leaves the buffer as Painted describes |
| Viewport.ScrollUpAsWritten | src/main/java/com/williamcallahan/ui/HistoryViewport.java:16-19 | scrollUp as written: non-positive amounts change nothing; otherwise the 32-bit wrapped sum, capped at 50000 |
| Viewport.ScrollUpOverflows | src/main/java/com/williamcallahan/ui/HistoryViewport.java:18 | from offset 1, scrolling up by 2147483647 wraps to a negative offset (-2147483648) |
| Viewport.ScrollUpTarget | src/main/java/com/williamcallahan/ui/HistoryViewport.java:16-19 | scrollUp as intended: the offset stays in [0, 50000], grows by exactly the amount when that fits under the cap and is capped otherwise; non-positive amounts change nothing |
| Viewport.ScrollUpAgreesWithoutWrap | src/main/java/com/williamcallahan/ui/HistoryViewport.java:18 | wherever the sum fits in an int, the written and the intended scrollUp agree |
| Viewport.ClampedOffset | src/main/java/com/williamcallahan/ui/HistoryViewport.java:41-45 | the kept offset lies in [0, max(0, total - visible)], and an offset already there is kept |
| Viewport.WindowAt | src/main/java/com/williamcallahan/ui/HistoryViewport.java:47-49 | the window lies within the content, is at most a screenful, and ends exactly offset lines above the bottom (at the bottom for offset 0) |
| Viewport.FullWindow | src/main/java/com/williamcallahan/ui/HistoryViewport.java:44-49 | with at least a screenful of content, the window is exactly a screenful |
| Viewport.HistoryViewport.constructor | src/main/java/com/williamcallahan/ui/HistoryViewport.java:8 | a new viewport follows the newest lines (offset 0) |
| Viewport.HistoryViewport.ScrollUp | src/main/java/com/williamcallahan/ui/HistoryViewport.java:16-19 | the offset becomes ScrollUpTarget of the old one and stays in [0, 50000] |
| Viewport.HistoryViewport.ScrollDown | src/main/java/com/williamcallahan/ui/HistoryViewport.java:22-25 | non-positive amounts change nothing; otherwise the offset drops by the amount, never below 0 |
| Viewport.HistoryViewport.Follow | src/main/java/com/williamcallahan/ui/HistoryViewport.java:28-30 | the offset becomes 0 |
| Viewport.HistoryViewport.Top | src/main/java/com/williamcallahan/ui/HistoryViewport.java:33-35 | the offset becomes 50000 |
| Viewport.HistoryViewport.WindowFor | src/main/java/com/williamcallahan/ui/HistoryViewport.java:40-50 | the stored offset is clamped to what the content allows, and the window for it is returned |
| MouseSelect.TokenAt | src/main/java/com/williamcallahan/ui/MouseSelectionController.java:300-311 | none exactly for an empty line; otherwise the trimmed maximal run of non-whitespace characters around the column clamped into the line |
| MouseSelect.Ordered | src/main/java/com/williamcallahan/ui/MouseSelectionController.java:266-269 | the endpoints, swapped or not, in reading order |
| MouseSelect.OrderedSymmetric | src/main/java/com/williamcallahan/ui/MouseSelectionController.java:266-269 | dragging from either end gives the same range |
| MouseSelect.ClampCol | src/main/java/com/williamcallahan/ui/MouseSelectionController.java:278-285 | a column clamped into the line |
| MouseSelect.OneLineSelection | src/main/java/com/williamcallahan/ui/MouseSelectionController.java:277-280 | a selection within one line copies exactly the characters between the two columns |
| MouseSelect.TwoLineSelection | src/main/java/com/williamcallahan/ui/MouseSelectionController.java:281-286 | selecting two whole lines copies them joined by a line break |
| MouseSelect.MouseSelectionController.constructor | src/main/java/com/williamcallahan/ui/MouseSelectionController.java:21-35 | a new controller has no selection, no drag, no history and no status |
| MouseSelect.MouseSelectionController.Sel | src/main/java/com/williamcallahan/ui/MouseSelectionController.java:47-50 | the selection fields as read by the accessors |
| MouseSelect.MouseSelectionController.Mapping | src/main/java/com/williamcallahan/ui/MouseSelectionController.java:31-35 | the history mapping fields |
| MouseSelect.MouseSelectionController.TransientStatus | src/main/java/com/williamcallahan/ui/MouseSelectionController.java:55-58 | the last status is shown exactly while it is younger than 1200 ms |
| MouseSelect.MouseSelectionController.VisibleLineIndex | src/main/java/com/williamcallahan/ui/MouseSelectionController.java:175-179 | a visible row exactly when the screen row lies on the visible history, and then its offset from the first history row; -1 otherwise |
| MouseSelect.MouseSelectionController.ClampLineIndex | src/main/java/com/williamcallahan/ui/MouseSelectionController.java:185-190 | -1 exactly without history; otherwise an index within the history, unchanged when already inside |
| MouseSelect.MouseSelectionController.ClampLineIndexForRow | src/main/java/com/williamcallahan/ui/MouseSelectionController.java:192-202 | -1 without visible rows or history; above the history the window start, otherwise the line under the row or the last visible one; inside the history whenever the visible rows lie inside it |
| MouseSelect.MouseSelectionController.ClearSelection | src/main/java/com/williamcallahan/ui/MouseSelectionController.java:76-83 | no drag and both selection ends unset, mapping and status unchanged |
| MouseSelect.MouseSelectionController.ClampSelectionToHistory | src/main/java/com/williamcallahan/ui/MouseSelectionController.java:330-342 | no history clears the selection; otherwise each set end is clamped into the history and unset ends stay unset |
| MouseSelect.MouseSelectionController.UpdateHistoryMapping | src/main/java/com/williamcallahan/ui/MouseSelectionController.java:63-71 | records the mapping (a negative window start as 0, null lists as empty); an empty new history clears the selection, otherwise each set end is clamped into the new history with the flags and columns kept; the status is unchanged |
| MouseSelect.MouseSelectionController.CollectSelection | src/main/java/com/williamcallahan/ui/MouseSelectionController.java:271-290 | the row loop builds exactly the selected text: the tail of the first row, whole middle rows and the head of the last, skipping rows outside the history |
| MouseSelect.MouseSelectionController.TrimmedSelection | src/main/java/com/williamcallahan/ui/MouseSelectionController.java:261-292 | the selected rows in reading order, trimmed |
| MouseSelect.MouseSelectionController.CopySelectedHistoryLines | src/main/java/com/williamcallahan/ui/MouseSelectionController.java:258-298 | copies exactly when there is a selection over a non-empty history whose trimmed text is not empty; the copied text is that text and the status becomes "COPIED" |
| MouseSelect.MouseSelectionController.PressAt | src/main/java/com/williamcallahan/ui/MouseSelectionController.java:119-136 | a left press on a history row starts a one-point selection on that line at the column; a press elsewhere clears the selection |
| MouseSelect.MouseSelectionController.Extend | src/main/java/com/williamcallahan/ui/MouseSelectionController.java:141-155 | the far end moves to the line the drag reaches, if any, and to the column |
| MouseSelect.MouseSelectionController.ReleaseAt | src/main/java/com/williamcallahan/ui/MouseSelectionController.java:149-170 | a release ends the drag; a click that opened a link clears the selection and shows "OPENED"; otherwise the far end moves to the release row and column, and the selection is copied, with status "COPIED", exactly when there is non-blank text to copy; when nothing is copied the status is unchanged |
| MouseSelect.MouseSelectionController.Handle | src/main/java/com/williamcallahan/ui/MouseSelectionController.java:88-173 | no event or a wheel event changes nothing; a left press, a drag and a release act as PressAt, Extend and ReleaseAt (the release leaving the state Released describes: the new far end, and a copy exactly when there is text to copy); other events change nothing; every event but a release while selecting keeps the status and its time; the selection stays inside the history |
| Theme.ParamRun | src/main/java/com/williamcallahan/chatclient/ui/TuiTheme.java:155 | the longest prefix of `[;\d]` characters: every character in it is one, and the next one is not |
| Theme.AnsiMatchLength | src/main/java/com/williamcallahan/chatclient/ui/TuiTheme.java:155 | a match of the SGR pattern at the start is ESC "[", parameter characters only, then "m"; 0 when none |
| Theme.StripAnsi | src/main/java/com/williamcallahan/chatclient/ui/TuiTheme.java:153-156 | removing the escape sequences never lengthens the text |
| Theme.StripAnsiPlain | src/main/java/com/williamcallahan/chatclient/ui/TuiTheme.java:153-156 | text without an escape character is its own visible text |
| Theme.StripAnsiSgr | src/main/java/com/williamcallahan/chatclient/ui/TuiTheme.java:153-156 | a complete SGR sequence in front of a text adds nothing visible |
| Theme.StripAnsiSpacesRight | src/main/java/com/williamcallahan/chatclient/ui/TuiTheme.java:153-156 | spaces appended to a text are appended to its visible text |
| Theme.StripAnsiSpacesLeft | src/main/java/com/williamcallahan/chatclient/ui/TuiTheme.java:153-156 | spaces prepended to a text are prepended to its visible text |
| Theme.VisualWidth | src/main/java/com/williamcallahan/chatclient/ui/TuiTheme.java:159-161 | the visual width never exceeds the length, and equals it for text without an escape character |
| Theme.Center | src/main/java/com/williamcallahan/chatclient/ui/TuiTheme.java:85-90 | a text at least as wide as the target is returned unchanged; a narrower one ends with the text, is preceded only by spaces, and is left with at most one column of the spare width unfilled beyond the even split |
| Theme.PadRight | src/main/java/com/williamcallahan/chatclient/ui/TuiTheme.java:93-98 | the result starts with the text (null reads as ""), continues with spaces only, and is exactly max(width, visible width) columns wide |
| Theme.NextM | src/main/java/com/williamcallahan/chatclient/ui/TuiTheme.java:146-148 | the index of an "m" at or after the start, or -1 |
| Theme.NextMSpec | src/main/java/com/williamcallahan/chatclient/ui/TuiTheme.java:146-148 | -1 exactly when no "m" follows; otherwise the first "m" from the start |
| Theme.AnsiSequenceEnd | src/main/java/com/williamcallahan/chatclient/ui/TuiTheme.java:139-150 | either the position itself or an end at least three characters further, within the text |
| Theme.AnsiSequenceEndSpec | src/main/java/com/williamcallahan/chatclient/ui/TuiTheme.java:139-150 | a sequence runs from ESC "[" to the first "m" after it, and none is found exactly when no "m" follows an ESC "[" at the position |
| Theme.FindAnsiSequenceEnd | src/main/java/com/williamcallahan/chatclient/ui/TuiTheme.java:139-150 | the scanning loop returns the end that AnsiSequenceEnd describes |
| Theme.KeptEnd | src/main/java/com/williamcallahan/chatclient/ui/TuiTheme.java:118-130 | the scan stops between its start and the end of the text |
| Theme.KeptCount | src/main/java/com/williamcallahan/chatclient/ui/TuiTheme.java:118-130 | truncation keeps exactly min(budget, visible) visible characters, and keeps the whole text when fewer than the budget are visible |
| Theme.PlainKept | src/main/java/com/williamcallahan/chatclient/ui/TuiTheme.java:118-134 | without escape characters every character counts and no style is left open |
| Theme.PlainTruncation | src/main/java/com/williamcallahan/chatclient/ui/TuiTheme.java:110-136 | for unstyled text the ANSI-aware truncation is the plain prefix of min(width, length) characters, with no reset added |
| Theme.TruncatePreservingAnsi | src/main/java/com/williamcallahan/chatclient/ui/TuiTheme.java:110-136 | the copying loop returns the kept prefix plus a reset when a style is still open, as TruncatedAnsi states |
| Theme.Truncate | src/main/java/com/williamcallahan/chatclient/ui/TuiTheme.java:101-107 | null gives ""; text that fits is returned unchanged; otherwise it is cut to width - 3 visible characters plus "..." when width exceeds 3, or to width characters with no ellipsis |
| Theme.NewlinesStripped | src/main/java/com/williamcallahan/chatclient/ui/TuiTheme.java:164-173 | a prefix of the text, not ending in a line break, with only line breaks removed |
| Theme.StripIdempotent | src/main/java/com/williamcallahan/chatclient/ui/TuiTheme.java:164-173 | stripping twice strips nothing more |
| Theme.StripTrailingNewlines | src/main/java/com/williamcallahan/chatclient/ui/TuiTheme.java:164-173 | null gives ""; otherwise the loop returns the text without its trailing "\n" and "\r" characters |
| Places.FirstIcon | src/main/java/com/williamcallahan/chatclient/ui/maps/PlaceItem.java:89-108 | the icon of the first rule with a keyword in the lower-cased category, and the pin when no rule matches |
| Places.CategoryIcon | src/main/java/com/williamcallahan/chatclient/ui/maps/PlaceItem.java:86-109 | a missing or blank category gives the pin; any other category is lower-cased and matched against the rules in order |
| Places.Name | src/main/java/com/williamcallahan/chatclient/ui/maps/PlaceItem.java:16-18 | the name starts with the category's icon and ends with a space and the place's name |
| Places.Labeled | src/main/java/com/williamcallahan/chatclient/ui/maps/PlaceItem.java:17 | the label starts with the icon and ends with a space and the name |
| Places.Truncate | src/main/java/com/williamcallahan/chatclient/ui/maps/PlaceItem.java:80-84 | a text that fits is unchanged; a longer one is cut to exactly maxLen characters, the last three being "..." when maxLen exceeds 3 and a plain prefix otherwise |
| Places.Segments | src/main/java/com/williamcallahan/chatclient/ui/maps/PlaceItem.java:47 | at least one piece, none holding a comma |
| Places.SegmentsJoin | src/main/java/com/williamcallahan/chatclient/ui/maps/PlaceItem.java:47 | joining the pieces with commas gives back the text |
| Places.StripRegexSpace | src/main/java/com/williamcallahan/chatclient/ui/maps/PlaceItem.java:47 | a suffix of the text that does not start with whitespace |
| Places.DropTrailingEmpty | src/main/java/com/williamcallahan/chatclient/ui/maps/PlaceItem.java:47 | a prefix of the pieces that does not end in an empty one, with only empty pieces dropped |
| Places.SplitAddress | src/main/java/com/williamcallahan/chatclient/ui/maps/PlaceItem.java:47 | no piece holds a comma |
| Places.SplitTwoParts | src/main/java/com/williamcallahan/chatclient/ui/maps/PlaceItem.java:47 | "a, b" with comma-free parts splits back into exactly a and b |
| Places.NonBlankTrimmed | src/main/java/com/williamcallahan/chatclient/ui/maps/PlaceItem.java:55-60 | at most as many parts as given, all of them kept when none is blank, each without leading or trailing whitespace |
| Places.FormatAddress | src/main/java/com/williamcallahan/chatclient/ui/maps/PlaceItem.java:35-78 | never longer than maxLen; "" for a missing or blank address; the trimmed address when it fits; otherwise a single part is cut, three or more parts lose the first (street) part and are rejoined with ", ", two parts are rejoined, each then cut |
| Places.Description | src/main/java/com/williamcallahan/chatclient/ui/maps/PlaceItem.java:21-28 | a blank address gives the category, or "" when that is blank too; otherwise at most 50 characters |
| ToolBanner.ReplaceChar | src/main/java/com/williamcallahan/chatclient/ui/ToolCallBanner.java:33 | same length, every "from" character replaced by "to" and every other character kept |
| ToolBanner.DisplayName | src/main/java/com/williamcallahan/chatclient/ui/ToolCallBanner.java:28-34 | the display name never starts or ends with whitespace; its value in each case is stated by DisplayNameCases (missing, blank, weather tool), PrefixedDisplayName (a leading "get_" dropped once) and PlainDisplayName (any other name) |
| ToolBanner.SpacedName | src/main/java/com/williamcallahan/chatclient/ui/ToolCallBanner.java:31-33 | a name starting with "get_" loses those four characters, any other name is kept, and underscores then become spaces, so none remains |
| ToolBanner.DisplayNameCases | src/main/java/com/williamcallahan/chatclient/ui/ToolCallBanner.java:29-33 | a missing or blank name shows as "tool"; the weather tool shows as "weather"; no display name contains an underscore |
| ToolBanner.PrefixedDisplayName | src/main/java/com/williamcallahan/chatclient/ui/ToolCallBanner.java:31-33 | a name "get_" + n, other than the weather tool, shows as n with underscores as spaces, trimmed |
| ToolBanner.PrefixedExample | src/main/java/com/williamcallahan/chatclient/ui/ToolCallBanner.java:31-33 | "get_x_y" shows as "x y" |
| ToolBanner.PrefixDroppedOnce | src/main/java/com/williamcallahan/chatclient/ui/ToolCallBanner.java:31-32 | only one leading "get_" is dropped: for every n, "get_get_" + n shows as "get " followed by n with underscores as spaces, trimmed |
| ToolBanner.PlainDisplayName | src/main/java/com/williamcallahan/chatclient/ui/ToolCallBanner.java:31-33 | a name that is not blank, not the weather tool and without "get_" shows as itself with underscores as spaces, trimmed |
| ToolBanner.DisplayNameStable | src/main/java/com/williamcallahan/chatclient/ui/ToolCallBanner.java:28-34 | a display name that is not blank shows as itself: naming twice changes nothing |
| ToolBanner.BannerLabel | src/main/java/com/williamcallahan/chatclient/ui/ToolCallBanner.java:12-15 | the banner text ends with the display name |
| ToolBanner.WeatherBanner | src/test/java/com/williamcallahan/chatclient/ui/ToolCallBannerTest.java:19-23 | the weather tool's banner reads "tool call: weather" |
| WeatherTool.BeforeComma | src/main/java/com/williamcallahan/service/tools/WeatherForecastTool.java:77-78 | a comma-free prefix of the text that stops at the first comma or at the end |
| WeatherTool.Days | src/main/java/com/williamcallahan/service/tools/WeatherForecastTool.java:65-66 | 5 when absent; a given number is first cut to its low 32 bits as a Java `int` (unchanged when it already fits); that int is kept when in [1, 16], a smaller one becomes 1 and a larger one 16 |
| WeatherTool.NormalizeArguments | src/main/java/com/williamcallahan/service/tools/WeatherForecastTool.java:63-80 | in execute's order: a non-string city fails its cast; a `days` key holding null fails with a null pointer and one holding a non-number fails its cast; a missing, null or blank city is refused with "city is required"; the first non-string hint fails its cast; otherwise the call succeeds exactly when the city, trimmed, cut at its first comma and trimmed again, is not blank, and goes out with it, the clamped day count and the hints (null or absent ones as none) |
| WeatherTool.NullDaysFails | src/main/java/com/williamcallahan/service/tools/WeatherForecastTool.java:64-65 | a `days` key holding null fails, where leaving the key out gives 5 days |
| WeatherTool.TrimNoCommaOrSame | src/main/java/com/williamcallahan/service/tools/WeatherForecastTool.java:76-78 | a trimmed city without a comma is left as it is |
| WeatherTool.StartsWithLower | src/main/java/com/williamcallahan/service/tools/WeatherForecastTool.java:183-186 | the case-insensitive prefix test agrees with comparing the lower-cased texts |
| WeatherTool.ContainsStep | src/main/java/com/williamcallahan/service/tools/WeatherForecastTool.java:185 | a text contains a part exactly when the part starts at its first position or its rest contains it |
| WeatherTool.ContainsIgnoreCaseLowers | src/main/java/com/williamcallahan/service/tools/WeatherForecastTool.java:183-186 | the case-insensitive scan holds exactly when the lower-cased haystack contains the lower-cased needle |
| WeatherTool.Score | src/main/java/com/williamcallahan/service/tools/WeatherForecastTool.java:188-195 | a score between 0 and 28 |
| WeatherTool.ScoreBounds | src/main/java/com/williamcallahan/service/tools/WeatherForecastTool.java:188-199 | the top score 28 exactly when all four hints match; with no hint given every candidate scores 0 |
| WeatherTool.MoreMatchesScoreHigher | src/main/java/com/williamcallahan/service/tools/WeatherForecastTool.java:188-195 | a candidate matching every hint another matches, plus one more, scores strictly higher |
| WeatherTool.CountryCodeTiesCountryAndCounty | src/main/java/com/williamcallahan/service/tools/WeatherForecastTool.java:188-195 | the country code alone scores as much as the country and the county together, so population decides between them |
| WeatherTool.Scores | src/main/java/com/williamcallahan/service/tools/WeatherForecastTool.java:171-172 | one score per candidate |
| WeatherTool.ScoresAt | src/main/java/com/williamcallahan/service/tools/WeatherForecastTool.java:171-172 | the score list holds each candidate's own score |
| WeatherTool.RanksByScore | src/main/java/com/williamcallahan/service/tools/WeatherForecastTool.java:174 | one candidate ranks above another exactly when its score is higher, or equal with a larger population |
| WeatherTool.TakesTheLead | src/main/java/com/williamcallahan/service/tools/WeatherForecastTool.java:174-178 | a candidate that beats the best so far beats every earlier candidate and is beaten by none of them |
| WeatherTool.ChooseBestResult | src/main/java/com/williamcallahan/service/tools/WeatherForecastTool.java:164-181 | without hints the first candidate; with hints a candidate no other ranks above, and above every earlier one, so the first of the best |

## Left out

- Supplementary characters: a Dafny `char` is a Unicode scalar value, so a string holding a character outside the Basic Multilingual Plane (the emoji of `Places.Glyph`, say) has one position per character here, where Java's `length()` counts two UTF-16 units for it. Lengths, indices and truncation widths of such strings (`Places.Truncate`, `Places.Name`, `Theme.Truncate`, `TokenCounter.EstimateTokens`) are counted per character.
- `TokenCounter.countWords`: a regular-expression split on whitespace, not used by the modelled core.
- Null entries inside a message list (`TokenCounter.estimateTokens(Conversation)` filters them): a list here holds messages only.
- `ContextTracker.isNearLimit`: it compares doubles. The double constants of `TokenCounter` and `SummaryService` are replaced by exact integer forms.
- ContextTracker.LookupLongest: when two keys of the same length both match, Java picks one by its map iteration order, which is unspecified. The model scans in declaration order, so the contract states only that the size of a longest matching key is returned.
- The file load and save of `Config`, and `com/williamcallahan/Config.java`: disk I/O. The environment is an input map, the loaded properties an initial map, and a write's success a flag.
- The one-line `Config` accessors (`resolveApiKey`, `setModel`, `userName` and the like): each is `Resolve` or `Set` with a fixed key.
- The environment reads of `SummaryService.isSummaryEnabled` and `getTargetTokens`: the values come in as parameters.
- The system clock and random UUIDs: times and short ids come in as parameters.
- The chat endpoint, the summariser, the tools, and Jackson's JSON parsing and serialisation: function-typed parameters that return a value or fail. Their internals are not part of this model.
- `SlashCommands.defaults()`, the registry list: the registry is a parameter. `Invocation` covers every `matchesInvocation` in the modelled command files: `/weather` (name or arguments), `/locate` (the same, any case), `/new` and `/quit` (exact), `/clear` (exact, any case); the `/model` and `/about` commands of that list are not part of this model.
- `ConfigPalette.buildItems` and `refresh`: the palette receives the item list built from the configuration (`built`) and the list its getters report after a write (`refreshed`).
- The `applyOverlay` methods of the palettes, and all rendering: styles, colours, borders and the box text. Only the overlay geometry (`OverlayGeometry`) and the line splice (`OverlayGeometry.Apply`) are modelled.
- The URL recognition, link opening, clipboard and cursor-shape commands of `MouseSelectionController`: the caller reports whether a release opened a link. Its `URL_PATTERN` (line 17-19) writes the digit range as `0-0`, so URLs with digits other than 0 are not recognised. That regex is not part of this model.
- Null history lines in `MouseSelectionController`: history lines are strings.
- Theme.Center: a null text is not modelled; the Java method would print "null" after the padding.
- The HTTP calls of `WeatherForecastTool` (`geocodeResults`, `forecast`, `getJson`), the forecast fields, `GEOCODE_CANDIDATES` and the count clamp of the geocoding query.
- WeatherTool.ChooseBestResult: it requires a non-empty candidate list. `geocode` throws before choosing when the geocoder returns no result, and that HTTP result is not modelled.
- WeatherTool.Days: a fractional `days` argument (a JSON number such as 2.7, which `Number.intValue` truncates) is not modelled, because a number argument is an integer here; integers outside the `int` range are wrapped as `intValue` does. A null or non-numeric `days`, and non-string city and hints, are modelled as the exceptions `execute` raises (`WeatherTool.NormalizeArguments`).
- JavaString.ParseInt: Java's `Integer.parseInt` reads digits through `Character.digit`, which accepts every Unicode decimal digit (the fullwidth `１２０００`, say); the model accepts ASCII `0`-`9` only, and reads any other digit as unparsable. Its callers inherit this.
- SummaryService.SummaryTargetTokens: a `BRIEF_SUMMARY_TARGET_TOKENS` written with non-ASCII decimal digits falls back to the configured target here, where Java uses the number (see JavaString.ParseInt).
- Settings.Config.GetSummaryTargetTokens: a `summary.target_tokens` written with non-ASCII decimal digits reads as 8000 here, where Java uses the number (see JavaString.ParseInt).
- JavaString.ToLower, JavaString.EqualsIgnoreCase: Java's `String.toLowerCase` and `equalsIgnoreCase` fold the case of every Unicode letter; the model folds ASCII `A`-`Z` only, so non-ASCII case variants (such as `É` against `é`) are not matched. This weakens every case-insensitive comparison built on them: WeatherTool.ContainsIgnoreCase, WeatherTool.Score and WeatherTool.ChooseBestResult, Domain.RoleFromString, ModelPicker.PassesFilter and ModelPicker.Keep, Settings.PriorityFrom, Settings.Config.IsSummaryEnabled, SummaryService.SummaryEnabled, SlashCommands.Invokes, SlashCommands.Listed and SlashCommands.ComposerMatches, LocateSlash.QueryText, WeatherSlash.IsJsonFlag, ContextTracker.GetContextSize, Places.CategoryIcon, SettingsPalette.SummaryDisabledBy and SettingsPalette.ToggleNext. The keys and words they compare against are all ASCII.
- The terminal screens, the key and mouse wiring through the terminal toolkit, the network services, and the duplicate `ui/` and `lattetui/` variants of the modelled files.

## Findings

| source | as written | input that shows it | evidently intended | confidence | as-written member | corrected member |
|---|---|---|---|---|---|---|
| src/main/java/com/williamcallahan/ui/HistoryViewport.java:18 | `Math.min(scrollOffsetLines + lines, 50_000)` adds two 32-bit ints, so a large scroll amount wraps the sum to a negative offset | offset 1, `scrollUp(2147483647)`: the sum wraps to -2147483648, which becomes the new offset | the offset grows by the amount and is capped at 50000, never negative | not executed | Viewport.ScrollUpAsWritten, Viewport.ScrollUpOverflows | Viewport.ScrollUpTarget, Viewport.HistoryViewport.ScrollUp |
