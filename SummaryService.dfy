/** Paste summarisation and context-window trimming. Long pasted text and the middle of
    a long history are handed to a summariser; when the summariser fails the text is cut
    to the character budget instead. */
module SummaryService {
  import opened Wrappers
  import opened JavaString
  import opened Domain
  import opened ConversationModel
  import opened TokenCounter
  import opened ContextTracker

  const PlaceholderMinLines: int := 3
  const PlaceholderMinChars: int := 150
  const MinSummaryTokens: int := 500
  const MessagesToPreserve: int := 4
  const CharsPerToken: int := 4
  const TruncationMarker: string := "\n[... truncated]"
  const SummaryLabel: string := "[Earlier conversation summarized]\n"
  const UserPrefix: string := "User: "
  const AssistantPrefix: string := "Assistant: "
  const EntryEnd: string := "\n\n"
  const PromptPreserve: string := "Preserve key information, code snippets, file paths, and important technical details.\n"
  const PromptNoPreamble: string := "Do not add commentary or preamble - provide only the summary.\n"

  /** The completion endpoint: given a prompt and a model it returns the reply, or None
      when the call throws a RuntimeException. */
  type Completer = (string, Option<string>) -> Option<string>

  /** The completion service together with the model the configuration resolves. */
  datatype Backend = Backend(complete: Completer, model: Option<string>)

  datatype PasteSummary = PasteSummary(
    displayText: string,
    actualText: string,
    wasSummarized: bool,
    wasTruncated: bool,
    lineCount: int)

  datatype TrimResult = TrimResult(messages: seq<ChatMessage>, wasTrimmed: bool, wasTruncated: bool)

  datatype SummarizeResult = SummarizeResult(text: string, wasTruncated: bool)

  // ---------------------------------------------------------------- truncation

  /** truncateToTokens: text within the character budget is kept whole; longer text is
      cut to the budget and marked. */
  function TruncateToTokens(text: string, targetTokens: nat): (r: string)
    ensures |text| <= CharsPerToken * targetTokens ==> r == text
    ensures |text| > CharsPerToken * targetTokens ==>
      |r| == CharsPerToken * targetTokens + |TruncationMarker|
      && r[..CharsPerToken * targetTokens] == text[..CharsPerToken * targetTokens]
      && EndsWith(r, TruncationMarker)
  {
    var chars := CharsPerToken * targetTokens;
    if |text| <= chars then text
    else
      var r := text[..chars] + TruncationMarker;
      assert r[..chars] == text[..chars];
      assert r[|r| - |TruncationMarker|..] == TruncationMarker;
      r
  }

  // ---------------------------------------------------------------- summarising

  /** (int) (targetTokens * 0.85) for a non-negative budget, then tokensToWords. */
  function TargetWords(targetTokens: nat): (r: int)
    ensures 0 <= r <= targetTokens
  {
    TokensToWords((targetTokens * 85) / 100)
  }

  /** The instruction sent to the summariser, as the text block formats it. */
  function SummaryPrompt(context: string, targetWords: int, text: string): (r: string)
    ensures StartsWith(r, "Summarize the following " + context)
    ensures EndsWith(r, "\n---\n" + text + "\n")
  {
    var head := "Summarize the following " + context;
    var tail := "\n---\n" + text + "\n";
    var r := head + " concisely in approximately " + IntToString(targetWords) + " words.\n"
      + PromptPreserve + PromptNoPreamble
      + tail;
    assert r[..|head|] == head;
    assert r[|r| - |tail|..] == tail;
    r
  }

  /** summarizeWithFallback: the summariser's reply when it answers, otherwise the text
      truncated to the budget, flagged as truncated. */
  function SummarizeWithFallback(backend: Backend, text: string, targetTokens: nat, context: string): (r: SummarizeResult)
    ensures var reply := backend.complete(SummaryPrompt(context, TargetWords(targetTokens), text), backend.model);
      && (r.wasTruncated <==> reply.None?)
      && (reply.Some? ==> r.text == reply.value)
      && (reply.None? ==> r.text == TruncateToTokens(text, targetTokens))
  {
    var prompt := SummaryPrompt(context, TargetWords(targetTokens), text);
    match backend.complete(prompt, backend.model)
    case Some(summary) => SummarizeResult(summary, false)
    case None => SummarizeResult(TruncateToTokens(text, targetTokens), true)
  }

  /** summarize: the text summarizeWithFallback produces, without saying which path
      produced it. */
  function Summarize(backend: Backend, text: string, targetTokens: nat, context: string): (r: string)
    ensures var reply := backend.complete(SummaryPrompt(context, TargetWords(targetTokens), text), backend.model);
      && (reply.Some? ==> r == reply.value)
      && (reply.None? ==> r == TruncateToTokens(text, targetTokens))
  {
    SummarizeWithFallback(backend, text, targetTokens, context).text
  }

  // ---------------------------------------------------------------- settings

  /** isSummaryEnabled, given the value of BRIEF_SUMMARY_DISABLED (None when unset) and
      what the configuration says: "1" or "true" in any letter case switches summarising
      off, and otherwise the configuration decides. */
  predicate SummaryEnabled(envDisabled: Option<string>, configEnabled: bool) {
    var off := envDisabled.Some? && (envDisabled.value == "1" || EqualsIgnoreCase("true", envDisabled.value));
    !off && configEnabled
  }

  /** The environment can only switch summarising off, and leaves the decision to the
      configuration when it is unset. */
  lemma SummaryEnabledByConfig(envDisabled: Option<string>, configEnabled: bool)
    ensures SummaryEnabled(envDisabled, configEnabled) ==> configEnabled
    ensures envDisabled.None? ==> SummaryEnabled(envDisabled, configEnabled) == configEnabled
    ensures envDisabled == Some("1") ==> !SummaryEnabled(envDisabled, configEnabled)
  {
  }

  /** getTargetTokens, given the value of BRIEF_SUMMARY_TARGET_TOKENS (None when unset) and
      the configured target: a positive whole number in the variable wins, anything else
      falls back to the configuration. */
  function SummaryTargetTokens(envTarget: Option<string>, configTarget: int): (r: int)
    requires 0 < configTarget <= INT_MAX
    ensures 0 < r <= INT_MAX
    ensures envTarget.None? || IsBlank(envTarget.value) ==> r == configTarget
    ensures envTarget.Some? && !IsBlank(envTarget.value) ==>
      var p := ParseInt(JavaString.Trim(envTarget.value));
      (p.Some? && p.value > 0 ==> r == p.value) && (p.None? || p.value <= 0 ==> r == configTarget)
  {
    if envTarget.Some? && !IsBlank(envTarget.value) then
      var parsed := match ParseInt(JavaString.Trim(envTarget.value)) case Some(v) => v case None => -1;
      if parsed > 0 then parsed else configTarget
    else configTarget
  }

  // ---------------------------------------------------------------- paste

  predicate HasLineBreak(s: string) {
    '\n' in s || '\r' in s
  }

  /** containsLineBreak: scans for a line feed or carriage return. */
  method ContainsLineBreak(text: string) returns (r: bool)
    ensures r <==> HasLineBreak(text)
  {
    var i := 0;
    while i < |text|
      invariant 0 <= i <= |text|
      invariant forall j | 0 <= j < i :: text[j] != '\n' && text[j] != '\r'
    {
      if text[i] == '\n' || text[i] == '\r' {
        return true;
      }
      i := i + 1;
    }
    return false;
  }

  function PastePlaceholder(pasteIndex: int): string {
    "[Pasted text " + IntToString(pasteIndex) + "]"
  }

  function PasteLabel(pasteIndex: int, truncated: bool): string {
    "[Pasted text " + IntToString(pasteIndex) + (if truncated then " (truncated)]" else " (summarized)]")
  }

  /** Pasted text is shown as a placeholder when it has a line break, spans three or more
      lines, or is longer than 150 characters. */
  predicate UsesPlaceholder(text: string) {
    HasLineBreak(text) || CountLines(Some(text)) >= PlaceholderMinLines || |text| > PlaceholderMinChars
  }

  /** Three or more lines need a line feed, so the line-count test never adds a case. */
  lemma UsesPlaceholderIff(text: string)
    requires text != []
    ensures UsesPlaceholder(text) <==> HasLineBreak(text) || |text| > PlaceholderMinChars
  {
    if CountLines(Some(text)) >= PlaceholderMinLines {
      assert multiset(text)['\n'] > 0;
      assert '\n' in text;
    }
  }

  /** processPaste. `summaryEnabled` and `targetTokens` are the values that
      isSummaryEnabled and getTargetTokens read from the environment and configuration;
      the latter is always positive. */
  method ProcessPaste(backend: Backend, pastedText: Option<string>, pasteIndex: int,
                      summaryEnabled: bool, targetTokens: int) returns (r: PasteSummary)
    requires 0 < targetTokens <= INT_MAX
    ensures pastedText.None? || pastedText.value == [] ==> r == PasteSummary("", "", false, false, 0)
    ensures pastedText.Some? && pastedText.value != [] ==>
      var text := pastedText.value;
      var display := if UsesPlaceholder(text) then PastePlaceholder(pasteIndex) else text;
      r.lineCount == CountLines(pastedText)
      && (!summaryEnabled || EstimateTokens(pastedText) <= targetTokens ==>
            r == PasteSummary(display, text, false, false, CountLines(pastedText)))
      && (summaryEnabled && EstimateTokens(pastedText) > targetTokens ==>
            var s := SummarizeWithFallback(backend, text, targetTokens, "pasted content");
            r == PasteSummary(PasteLabel(pasteIndex, s.wasTruncated), s.text, true, s.wasTruncated, CountLines(pastedText)))
  {
    if pastedText.None? || pastedText.value == [] {
      return PasteSummary("", "", false, false, 0);
    }
    var text := pastedText.value;
    var lineCount := CountLines(pastedText);
    var tokens := EstimateTokens(pastedText);
    var lineBreak := ContainsLineBreak(text);
    var usePlaceholder := lineBreak || lineCount >= PlaceholderMinLines || |text| > PlaceholderMinChars;
    var displayText := if usePlaceholder then PastePlaceholder(pasteIndex) else text;
    if !summaryEnabled || tokens <= targetTokens {
      return PasteSummary(displayText, text, false, false, lineCount);
    }
    var result := SummarizeWithFallback(backend, text, targetTokens, "pasted content");
    var summaryDisplay := PasteLabel(pasteIndex, result.wasTruncated);
    return PasteSummary(summaryDisplay, result.text, true, result.wasTruncated, lineCount);
  }

  // ---------------------------------------------------------------- trimming

  /** The number of leading SYSTEM messages. */
  function LeadingSystem(msgs: seq<ChatMessage>): (r: nat)
    ensures r <= |msgs|
    ensures r < |msgs| ==> msgs[r].role != SYSTEM
    ensures forall i | 0 <= i < r :: msgs[i].role == SYSTEM
  {
    if |msgs| == 0 || msgs[0].role != SYSTEM then 0 else 1 + LeadingSystem(msgs[1..])
  }

  /** findSummarizeStart: the first non-SYSTEM index, or 0 when every message is SYSTEM. */
  function SummarizeStart(msgs: seq<ChatMessage>): (r: nat)
    ensures r < |msgs| || r == 0
    ensures (exists i | 0 <= i < |msgs| :: msgs[i].role != SYSTEM) ==>
      r < |msgs| && msgs[r].role != SYSTEM && forall i | 0 <= i < r :: msgs[i].role == SYSTEM
    ensures (forall i | 0 <= i < |msgs| :: msgs[i].role == SYSTEM) ==> r == 0
  {
    var k := LeadingSystem(msgs);
    if k == |msgs| then 0 else k
  }

  method FindSummarizeStart(msgs: seq<ChatMessage>) returns (r: nat)
    ensures r == SummarizeStart(msgs)
  {
    var i := 0;
    while i < |msgs|
      invariant 0 <= i <= |msgs|
      invariant forall j | 0 <= j < i :: msgs[j].role == SYSTEM
    {
      if msgs[i].role != SYSTEM {
        return i;
      }
      i := i + 1;
    }
    return 0;
  }

  /** findSummarizeEnd: keep the last four messages out of the summary. */
  function SummarizeEnd(n: nat, start: nat): (r: nat)
    ensures r >= start && r >= n - MessagesToPreserve
    ensures r == start || r == n - MessagesToPreserve
  {
    if n - MessagesToPreserve > start then n - MessagesToPreserve else start
  }

  /** The speaker prefix a message gets in the summary transcript. */
  function SpeakerPrefix(role: Role): string {
    match role
    case USER => UserPrefix
    case ASSISTANT => AssistantPrefix
    case _ => ""
  }

  /** StringBuilder.append(String) writes "null" for a null reference. */
  function ContentText(content: Option<string>): string {
    match content
    case Some(c) => c
    case None => "null"
  }

  function TranscriptEntry(m: ChatMessage): (r: string)
    ensures |r| >= 2
  {
    SpeakerPrefix(m.role) + ContentText(m.content) + EntryEnd
  }

  /** The transcript of `msgs`, one entry per message in order. */
  function Transcript(msgs: seq<ChatMessage>): (r: string)
    ensures |r| >= 2 * |msgs|
  {
    if |msgs| == 0 then "" else TranscriptEntry(msgs[0]) + Transcript(msgs[1..])
  }

  /** The transcript of a concatenation is the concatenation of transcripts. */
  lemma {:induction false} TranscriptAppend(a: seq<ChatMessage>, b: seq<ChatMessage>)
    ensures Transcript(a + b) == Transcript(a) + Transcript(b)
  {
    if |a| == 0 {
      assert a + b == b;
    } else {
      assert (a + b)[1..] == a[1..] + b;
      TranscriptAppend(a[1..], b);
    }
  }

  /** Extending a range by one message appends that message's entry. */
  lemma TranscriptStep(msgs: seq<ChatMessage>, start: nat, i: nat)
    requires start <= i < |msgs|
    ensures Transcript(msgs[start..i + 1]) == Transcript(msgs[start..i]) + TranscriptEntry(msgs[i])
  {
    assert msgs[start..i + 1] == msgs[start..i] + [msgs[i]];
    TranscriptAppend(msgs[start..i], [msgs[i]]);
    assert [msgs[i]][1..] == [];
  }

  /** extractMessagesForSummary: the transcript of messages [start, end). */
  method ExtractMessagesForSummary(msgs: seq<ChatMessage>, start: nat, end: nat) returns (text: string)
    requires start <= end <= |msgs|
    ensures text == Transcript(msgs[start..end])
  {
    text := "";
    var i := start;
    while i < end
      invariant start <= i <= end
      invariant text == Transcript(msgs[start..i])
    {
      TranscriptStep(msgs, start, i);
      text := text + TranscriptEntry(msgs[i]);
      i := i + 1;
    }
  }

  /** buildTrimmedList: the messages before `start`, the summary, then the messages from
      `end` on. */
  method BuildTrimmedList(msgs: seq<ChatMessage>, start: nat, end: nat, summary: ChatMessage)
    returns (trimmed: seq<ChatMessage>)
    requires start <= end <= |msgs|
    ensures trimmed == msgs[..start] + [summary] + msgs[end..]
  {
    trimmed := [];
    var i := 0;
    while i < start
      invariant 0 <= i <= start
      invariant trimmed == msgs[..i]
    {
      assert msgs[..i + 1] == msgs[..i] + [msgs[i]];
      trimmed := trimmed + [msgs[i]];
      i := i + 1;
    }
    trimmed := trimmed + [summary];
    i := end;
    while i < |msgs|
      invariant end <= i <= |msgs|
      invariant trimmed == msgs[..start] + [summary] + msgs[end..i]
    {
      assert msgs[end..i + 1] == msgs[end..i] + [msgs[i]];
      trimmed := trimmed + [msgs[i]];
      i := i + 1;
    }
    assert msgs[end..|msgs|] == msgs[end..];
  }

  /** The token budget asked of the summariser: enough to free the missing tokens plus a
      500-token margin, never below 500 and never above the source. */
  function TargetTokens(sourceTokens: nat, remaining: int, reserveTokens: int): (r: nat)
    requires remaining < reserveTokens
    ensures r <= sourceTokens
    ensures sourceTokens <= MinSummaryTokens ==> r == sourceTokens
    ensures sourceTokens > MinSummaryTokens ==>
      MinSummaryTokens <= r < sourceTokens
      && r >= sourceTokens - (reserveTokens - remaining + MinSummaryTokens)
    ensures sourceTokens > MinSummaryTokens ==>
      r == MinSummaryTokens || sourceTokens - r >= reserveTokens - remaining + MinSummaryTokens
  {
    var tokensToFree := reserveTokens - remaining + MinSummaryTokens;
    var desired := if sourceTokens - tokensToFree > MinSummaryTokens then sourceTokens - tokensToFree else MinSummaryTokens;
    if desired < sourceTokens then desired else sourceTokens
  }

  /** createSummaryMessage: a SYSTEM message at the summarised range's first index. */
  function SummaryMessage(conversationId: string, provider: Provider, index: int,
                          model: Option<string>, summary: string, uuid8: string, now: int): (m: ChatMessage)
    ensures m.role == SYSTEM && m.source == SYSTEM_SOURCE && m.index == index
    ensures m.content == Some(SummaryLabel + summary)
  {
    ChatMessage("summary_" + uuid8, conversationId, index, SYSTEM, SYSTEM_SOURCE,
      Some(SummaryLabel + summary), now, model, Some(ProviderTag(provider)), [], None)
  }

  /** The value of trimIfNeeded, given the remaining window `remaining` that
      remainingTokens computes; `uuid8` and `now` stand for the random id suffix and the
      clock. */
  function Trim(backend: Backend, msgs: seq<ChatMessage>, conversationId: string, provider: Provider,
                model: Option<string>, remaining: int, reserveTokens: int, uuid8: string, now: int): (r: TrimResult)
    ensures remaining >= reserveTokens || |msgs| <= 2 ==> r == TrimResult(msgs, false, false)
    ensures !r.wasTrimmed ==> r.messages == msgs && !r.wasTruncated
    ensures r.wasTruncated ==> r.wasTrimmed
    ensures r.wasTrimmed ==>
      && remaining < reserveTokens && MessagesToPreserve < |msgs|
      && MessagesToPreserve < |r.messages| <= |msgs|
      && r.messages[|r.messages| - MessagesToPreserve..] == msgs[|msgs| - MessagesToPreserve..]
  {
    if remaining >= reserveTokens || |msgs| <= 2 then TrimResult(msgs, false, false)
    else
      var start := SummarizeStart(msgs);
      var end := SummarizeEnd(|msgs|, start);
      if end <= start then TrimResult(msgs, false, false)
      else
        var text := Transcript(msgs[start..end]);
        var target := TargetTokens(EstimateTokens(Some(text)), remaining, reserveTokens);
        var result := SummarizeWithFallback(backend, text, target, "conversation history");
        var summary := SummaryMessage(conversationId, provider, start, model, result.text, uuid8, now);
        TrimResult(msgs[..start] + [summary] + msgs[end..], true, result.wasTruncated)
  }

  /** trimIfNeeded on a conversation: never changes the conversation, and returns the
      value `Trim` describes for the window that remainingTokens reports. */
  method TrimIfNeeded(backend: Backend, conversation: Conversation, model: Option<string>, reserveTokens: int,
                      uuid8: string, now: int) returns (r: TrimResult)
    ensures r == Trim(backend, conversation.messages, conversation.id, conversation.provider, model,
                      RemainingTokens(conversation, model), reserveTokens, uuid8, now)
  {
    var remaining := RemainingTokens(conversation, model);
    if remaining >= reserveTokens {
      return TrimResult(conversation.messages, false, false);
    }
    var messages := conversation.messages;
    if |messages| <= 2 {
      return TrimResult(messages, false, false);
    }
    var start := FindSummarizeStart(messages);
    var end := SummarizeEnd(|messages|, start);
    if end <= start {
      return TrimResult(messages, false, false);
    }
    var text := ExtractMessagesForSummary(messages, start, end);
    var sourceTokens := EstimateTokens(Some(text));
    var targetTokens := TargetTokens(sourceTokens, remaining, reserveTokens);
    var result := SummarizeWithFallback(backend, text, targetTokens, "conversation history");
    var summary := SummaryMessage(conversation.id, conversation.provider, start, model, result.text, uuid8, now);
    var trimmed := BuildTrimmedList(messages, start, end, summary);
    return TrimResult(trimmed, true, result.wasTruncated);
  }

  /** Trimming happens exactly when the window is short of the reserve, there are more
      than two messages, and more than four messages follow the leading SYSTEM block;
      otherwise the history comes back unchanged with both flags false. */
  lemma TrimWhen(backend: Backend, msgs: seq<ChatMessage>, conversationId: string, provider: Provider,
                 model: Option<string>, remaining: int, reserveTokens: int, uuid8: string, now: int)
    ensures var r := Trim(backend, msgs, conversationId, provider, model, remaining, reserveTokens, uuid8, now);
      && (r.wasTrimmed <==> remaining < reserveTokens && |msgs| > 2 && SummarizeStart(msgs) < |msgs| - MessagesToPreserve)
      && (!r.wasTrimmed ==> r == TrimResult(msgs, false, false))
  {
  }

  /** A history of at most four messages is never trimmed. */
  lemma {:induction false} FewMessagesKept(backend: Backend, msgs: seq<ChatMessage>, conversationId: string,
                 provider: Provider, model: Option<string>, remaining: int, reserveTokens: int, uuid8: string, now: int)
    requires |msgs| <= MessagesToPreserve
    ensures Trim(backend, msgs, conversationId, provider, model, remaining, reserveTokens, uuid8, now)
      == TrimResult(msgs, false, false)
  {
  }

  /** The shape of a trimmed history: the leading SYSTEM block, one summary message at its
      end, then the last four messages, all in their original order. */
  lemma {:induction false} TrimShape(backend: Backend, msgs: seq<ChatMessage>, conversationId: string, provider: Provider,
                  model: Option<string>, remaining: int, reserveTokens: int, uuid8: string, now: int)
    requires Trim(backend, msgs, conversationId, provider, model, remaining, reserveTokens, uuid8, now).wasTrimmed
    ensures var r := Trim(backend, msgs, conversationId, provider, model, remaining, reserveTokens, uuid8, now);
      var start := SummarizeStart(msgs);
      var end := |msgs| - MessagesToPreserve;
      && start < end
      && |r.messages| == start + 1 + MessagesToPreserve
      && |r.messages| == |msgs| - (end - start) + 1
      && r.messages[..start] == msgs[..start]
      && (forall i | 0 <= i < start :: msgs[i].role == SYSTEM)
      && r.messages[start + 1..] == msgs[end..]
  {
    var start := SummarizeStart(msgs);
    var end := SummarizeEnd(|msgs|, start);
    var r := Trim(backend, msgs, conversationId, provider, model, remaining, reserveTokens, uuid8, now);
    var summary := r.messages[start];
    assert r.messages == msgs[..start] + [summary] + msgs[end..];
    assert r.messages[..start] == msgs[..start];
    assert r.messages[start + 1..] == msgs[end..];
  }

  /** The summary message of a trimmed history: a SYSTEM message at the summarised range's
      first index whose text is the summariser's reply, or the truncated transcript
      exactly when the summariser failed. */
  lemma {:induction false} TrimSummary(backend: Backend, msgs: seq<ChatMessage>, conversationId: string, provider: Provider,
                  model: Option<string>, remaining: int, reserveTokens: int, uuid8: string, now: int)
    requires Trim(backend, msgs, conversationId, provider, model, remaining, reserveTokens, uuid8, now).wasTrimmed
    ensures var r := Trim(backend, msgs, conversationId, provider, model, remaining, reserveTokens, uuid8, now);
      var start := SummarizeStart(msgs);
      var text := Transcript(msgs[start..|msgs| - MessagesToPreserve]);
      var target := TargetTokens(EstimateTokens(Some(text)), remaining, reserveTokens);
      var reply := backend.complete(SummaryPrompt("conversation history", TargetWords(target), text), backend.model);
      && start < |r.messages|
      && r.messages[start].role == SYSTEM && r.messages[start].source == SYSTEM_SOURCE
      && r.messages[start].index == start
      && (r.wasTruncated <==> reply.None?)
      && (reply.Some? ==> r.messages[start].content == Some(SummaryLabel + reply.value))
      && (reply.None? ==> r.messages[start].content == Some(SummaryLabel + TruncateToTokens(text, target)))
  {
    var start := SummarizeStart(msgs);
    var end := SummarizeEnd(|msgs|, start);
    var text := Transcript(msgs[start..end]);
    var target := TargetTokens(EstimateTokens(Some(text)), remaining, reserveTokens);
    var result := SummarizeWithFallback(backend, text, target, "conversation history");
    var summary := SummaryMessage(conversationId, provider, start, model, result.text, uuid8, now);
    var out := msgs[..start] + [summary] + msgs[end..];
    assert out[start] == summary;
  }
}
