/** Context-window sizes by model name and the budget figures derived from them. */
module ContextTracker {
  import opened Wrappers
  import opened JavaString
  import opened ConversationModel
  import opened TokenCounter

  const DefaultContextSize: int := 8192

  datatype Entry = Entry(key: string, size: int)

  /** The model table, listed longest key first as the lookup scans it. Keys of equal
      length appear in declaration order; the Java map leaves their order unspecified. */
  const ModelContextSizes: seq<Entry> := [
    Entry("claude-3-sonnet", 200000),
    Entry("claude-3-haiku", 200000),
    Entry("gpt-3.5-turbo", 16385),
    Entry("claude-3-opus", 200000),
    Entry("gpt-4o-mini", 128000),
    Entry("gpt-4-turbo", 128000),
    Entry("claude-3.5", 200000),
    Entry("claude-3", 200000),
    Entry("gpt-3.5", 16385),
    Entry("llama-3", 8192),
    Entry("mixtral", 32768),
    Entry("mistral", 32768),
    Entry("gpt-4o", 128000),
    Entry("gpt-4", 8192)
  ]

  /** Each key is at least as long as the next one. */
  predicate LongestFirst(entries: seq<Entry>) {
    |entries| <= 1 || (|entries[0].key| >= |entries[1].key| && LongestFirst(entries[1..]))
  }

  lemma {:induction false} LongestFirstHead(entries: seq<Entry>)
    requires LongestFirst(entries) && |entries| > 0
    ensures forall x | x in entries :: |x.key| <= |entries[0].key|
  {
    if |entries| > 1 {
      LongestFirstHead(entries[1..]);
      assert entries == [entries[0]] + entries[1..];
    }
  }

  lemma TableIsLongestFirst()
    ensures LongestFirst(ModelContextSizes)
  {
  }

  /** `e` is a matching entry whose key is at least as long as every other match. */
  predicate LongestMatch(entries: seq<Entry>, lower: string, e: Entry) {
    e in entries && Contains(lower, e.key)
    && forall x | x in entries && Contains(lower, x.key) :: |x.key| <= |e.key|
  }

  /** The first entry whose key occurs in `lower`. */
  function FirstMatch(entries: seq<Entry>, lower: string): (r: Option<Entry>)
    requires LongestFirst(entries)
    ensures r.Some? ==> LongestMatch(entries, lower, r.value)
    ensures r.None? <==> forall x | x in entries :: !Contains(lower, x.key)
  {
    if |entries| == 0 then None
    else if Contains(lower, entries[0].key) then
      LongestFirstHead(entries);
      Some(entries[0])
    else
      var r := FirstMatch(entries[1..], lower);
      assert entries == [entries[0]] + entries[1..];
      r
  }

  lemma TableSizesPositive()
    ensures forall x | x in ModelContextSizes :: x.size > 0
  {
  }

  /** The size of the first table key contained in `lower`, or the default. */
  function Lookup(lower: string): (r: int)
    ensures r > 0
  {
    TableIsLongestFirst();
    match FirstMatch(ModelContextSizes, lower)
    case None => DefaultContextSize
    case Some(e) =>
      TableSizesPositive();
      e.size
  }

  /** The lookup takes the size of a longest table key contained in `lower`, or the
      default when none is. */
  lemma LookupLongest(lower: string)
    ensures (forall x | x in ModelContextSizes :: !Contains(lower, x.key)) ==> Lookup(lower) == DefaultContextSize
    ensures (exists x | x in ModelContextSizes :: Contains(lower, x.key)) ==>
      exists e | LongestMatch(ModelContextSizes, lower, e) :: e.size == Lookup(lower)
  {
    TableIsLongestFirst();
    var m := FirstMatch(ModelContextSizes, lower);
    if m.Some? {
      assert LongestMatch(ModelContextSizes, lower, m.value);
    }
  }

  /** getContextSize: the default for a null or blank model; otherwise the lookup of the
      lower-cased model. */
  function GetContextSize(model: Option<string>): (r: int)
    ensures model.None? || IsBlank(model.value) ==> r == DefaultContextSize
    ensures model.Some? && !IsBlank(model.value) ==> r == Lookup(ToLower(model.value))
    ensures r > 0
  {
    if model.None? || IsBlank(model.value) then DefaultContextSize
    else Lookup(ToLower(model.value))
  }

  lemma ContainsBounds(s: string, k: string)
    ensures Contains(s, k) ==> |k| <= |s|
    ensures |k| == |s| ==> (Contains(s, k) <==> s == k)
  {
    if |k| == |s| && s == k {
      assert OccursAt(s, k, 0);
    }
  }

  lemma KeysOfLength11(e: Entry)
    requires e in ModelContextSizes && |e.key| == 11
    ensures e == ModelContextSizes[4] || e == ModelContextSizes[5]
  {
  }

  /** Of the keys inside "gpt-4-turbo", the longest is "gpt-4-turbo" itself. */
  lemma TurboLongestMatch(s: string, e: Entry)
    requires s == "gpt-4-turbo"
    requires LongestMatch(ModelContextSizes, s, e)
    ensures e.size == 128000
  {
    var t := ModelContextSizes;
    ContainsBounds(s, t[5].key);
    ContainsBounds(s, e.key);
    KeysOfLength11(e);
    ContainsBounds(s, t[4].key);
    assert t[4].key != s by { assert t[4].key[5] != s[5]; }
  }

  /** "gpt-4-turbo" takes the 128000 window of its own key, not the 8192 of "gpt-4". */
  lemma SpecificKeyWins()
    ensures GetContextSize(Some("gpt-4-turbo")) == 128000
  {
    var s := "gpt-4-turbo";
    TurboName(s);
    TurboKeyMatches(s);
    var r := Lookup(s);
    LookupLongest(s);
    var e :| LongestMatch(ModelContextSizes, s, e) && e.size == r;
    TurboLongestMatch(s, e);
  }

  lemma TurboName(s: string)
    requires s == "gpt-4-turbo"
    ensures !IsBlank(s) && ToLower(s) == s
  {
    assert !IsWhitespace(s[0]);
    assert forall i | 0 <= i < |s| :: LowerChar(s[i]) == s[i];
  }

  lemma TurboKeyMatches(s: string)
    requires s == "gpt-4-turbo"
    ensures exists x | x in ModelContextSizes :: Contains(s, x.key)
  {
    var e := ModelContextSizes[5];
    assert e.key == s;
    assert OccursAt(s, e.key, 0);
    assert e in ModelContextSizes;
  }

  /** remainingTokens: the unused part of the window, never negative. */
  function RemainingTokens(conv: Conversation?, model: Option<string>): (r: nat)
    reads conv
    ensures r >= GetContextSize(model) - EstimateConversation(conv)
    ensures r == 0 || r == GetContextSize(model) - EstimateConversation(conv)
    ensures conv == null ==> r == GetContextSize(model)
  {
    var used := EstimateConversation(conv);
    var total := GetContextSize(model);
    if total - used > 0 then total - used else 0
  }

  /** usagePercent: the whole percentage of the window in use, capped at 100. */
  function UsagePercent(conv: Conversation?, model: Option<string>): (r: int)
    reads conv
    ensures IsPercent(r, EstimateConversation(conv), GetContextSize(model))
  {
    Percent(EstimateConversation(conv), GetContextSize(model))
  }

  /** `r` is min(100, floor(100 * used / total)): a whole percentage, 100 exactly when the
      window is full or overfull. */
  predicate IsPercent(r: int, used: int, total: int) {
    && 0 <= r <= 100
    && (r < 100 ==> r * total <= 100 * used < (r + 1) * total)
    && (r == 100 <==> used >= total)
  }

  /** min(100, floor(100 * used / total)). */
  function Percent(used: nat, total: int): (r: int)
    requires total > 0
    ensures IsPercent(r, used, total)
  {
    var p := (100 * used) / total;
    DivBounds(100 * used, total);
    if p >= 100 then
      MulMono(100, p, total);
      100
    else
      MulMono(p + 1, 100, total);
      p
  }

  lemma DivBounds(a: nat, b: int)
    requires b > 0
    ensures (a / b) * b <= a < (a / b + 1) * b
  {
  }

  lemma MulMono(x: int, y: int, b: int)
    requires x <= y && b > 0
    ensures x * b <= y * b
  {
  }
}
