/** Character-based token estimates (about four characters per token, three words per
    four tokens), stated with exact integer arithmetic. */
module TokenCounter {
  import opened Wrappers
  import opened JavaString
  import opened Domain
  import opened ConversationModel

  /** estimateTokens(String): 0 for null or empty text, otherwise the least whole number
      of four-character tokens that covers the text. */
  function EstimateTokens(text: Option<string>): (r: nat)
    ensures text.None? || text.value == [] ==> r == 0
    ensures text.Some? ==> 4 * r - 4 < |text.value| <= 4 * r
  {
    match text
    case None => 0
    case Some(s) => (|s| + 3) / 4
  }

  /** A message counts towards the estimate unless it is internal. */
  predicate Counted(m: ChatMessage) {
    m.source != INTERNAL
  }

  /** The summed estimate of the counted messages, in order. */
  function SumEstimates(msgs: seq<ChatMessage>): (r: nat)
  {
    if |msgs| == 0 then 0
    else
      var last := msgs[|msgs| - 1];
      SumEstimates(msgs[..|msgs| - 1]) + (if Counted(last) then EstimateTokens(last.content) else 0)
  }

  /** estimateTokens(Conversation): 0 for a null conversation, otherwise the estimate of
      every non-internal message. */
  function EstimateConversation(conv: Conversation?): (r: nat)
    reads conv
    ensures conv == null ==> r == 0
    ensures conv != null ==> r == SumEstimates(conv.messages)
    ensures conv != null && (forall i | 0 <= i < |conv.messages| :: !Counted(conv.messages[i])) ==> r == 0
  {
    if conv == null then 0
    else
      AllInternalSumZero(conv.messages);
      SumEstimates(conv.messages)
  }

  lemma {:induction false} AllInternalSumZero(msgs: seq<ChatMessage>)
    ensures (forall i | 0 <= i < |msgs| :: !Counted(msgs[i])) ==> SumEstimates(msgs) == 0
  {
    if |msgs| > 0 && forall i | 0 <= i < |msgs| :: !Counted(msgs[i]) {
      var init := msgs[..|msgs| - 1];
      assert forall i | 0 <= i < |init| :: init[i] == msgs[i];
      AllInternalSumZero(init);
    }
  }

  /** The conversation estimate is additive over concatenation, so splitting a history
      never changes its total. */
  lemma {:induction false} SumEstimatesAppend(a: seq<ChatMessage>, b: seq<ChatMessage>)
    ensures SumEstimates(a + b) == SumEstimates(a) + SumEstimates(b)
    decreases |b|
  {
    if |b| > 0 {
      var bi := b[..|b| - 1];
      assert (a + b)[..|a + b| - 1] == a + bi;
      SumEstimatesAppend(a, bi);
    } else {
      assert a + b == a;
    }
  }

  /** Appending a message adds its estimate, or nothing when it is internal. */
  lemma SumEstimatesPush(msgs: seq<ChatMessage>, m: ChatMessage)
    ensures SumEstimates(msgs + [m]) ==
      SumEstimates(msgs) + (if Counted(m) then EstimateTokens(m.content) else 0)
  {
    assert (msgs + [m])[..|msgs|] == msgs;
  }

  /** wordsToTokens: ceil(words / 0.75) cast back to int, which saturates at the bounds
      of `int`. */
  function WordsToTokens(words: int): (r: int)
    requires INT_MIN <= words <= INT_MAX
    ensures INT_MIN <= r <= INT_MAX
    ensures 4 * words > 3 * INT_MAX ==> r == INT_MAX
    ensures 4 * words <= 3 * (INT_MIN - 1) ==> r == INT_MIN
    ensures 3 * (INT_MIN - 1) < 4 * words <= 3 * INT_MAX ==> 3 * r - 3 < 4 * words <= 3 * r
  {
    var c := -((-4 * words) / 3);
    if c > INT_MAX then INT_MAX else if c < INT_MIN then INT_MIN else c
  }

  /** tokensToWords: tokens * 0.75 truncated toward zero. */
  function TokensToWords(tokens: int): (r: int)
    ensures INT_MIN <= tokens <= INT_MAX ==> INT_MIN <= r <= INT_MAX
    ensures tokens >= 0 ==> 0 <= 4 * r <= 3 * tokens < 4 * r + 4
    ensures tokens < 0 ==> 4 * r - 4 < 3 * tokens <= 4 * r <= 0
  {
    if tokens >= 0 then (3 * tokens) / 4 else -((-3 * tokens) / 4)
  }

  /** The number of line-feed characters in `s`. */
  function LineFeeds(s: string): (r: nat)
    ensures r == multiset(s)['\n']
  {
    if |s| == 0 then 0
    else
      assert s == s[..|s| - 1] + [s[|s| - 1]];
      LineFeeds(s[..|s| - 1]) + (if s[|s| - 1] == '\n' then 1 else 0)
  }

  /** countLines: 0 for null or empty text, otherwise one more than the number of line
      feeds. */
  function CountLines(text: Option<string>): (r: nat)
    ensures text.None? || text.value == [] ==> r == 0
    ensures text.Some? && text.value != [] ==> r == multiset(text.value)['\n'] + 1
  {
    if text.None? || text.value == [] then 0 else LineFeeds(text.value) + 1
  }

  lemma EstimateExamples()
    ensures EstimateTokens(Some("abcd")) == 1
    ensures EstimateTokens(Some("abcde")) == 2
    ensures EstimateTokens(None) == 0
  {
  }
}
