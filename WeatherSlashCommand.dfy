/** The /weather command: its invocation rule, the parsing of its arguments into a
    location and a JSON flag, and the two texts it sends to the model. */
module WeatherSlash {
  import opened Wrappers
  import opened JavaString
  import opened SlashCommands

  const DefaultCity: string := "San Francisco"
  const CommandName: string := "/weather"
  const Command: SlashCommand := SlashCommand(Some(CommandName), "Ask the assistant for weather", NameOrArguments, false)

  /** The invocation rule: "/weather" itself, or "/weather " followed by anything. */
  lemma CommandInvocation(input: string)
    ensures Invokes(Command, input) <==> input == "/weather" || StartsWith(input, "/weather ")
  {
  }

  /** The length of the run of non-space characters at the start of `s`. */
  function RunLength(s: string): (n: nat)
    ensures n <= |s|
    ensures forall i | 0 <= i < n :: !IsRegexSpace(s[i])
    ensures n == |s| || IsRegexSpace(s[n])
  {
    if |s| == 0 || IsRegexSpace(s[0]) then 0 else 1 + RunLength(s[1..])
  }

  /** split("\\s+") of text that does not start with a space: the maximal runs of
      non-space characters, in order. */
  function Words(s: string): (r: seq<string>)
    ensures forall w | w in r :: |w| > 0 && forall i | 0 <= i < |w| :: !IsRegexSpace(w[i])
    decreases |s|
  {
    if |s| == 0 then []
    else if IsRegexSpace(s[0]) then Words(s[1..])
    else
      var n := RunLength(s);
      [s[..n]] + Words(s[n..])
  }

  predicate IsJsonFlag(token: string) {
    EqualsIgnoreCase(token, "--json") || EqualsIgnoreCase(token, "-j")
  }

  /** Tokens that become part of the location: not the JSON flag, not another option. */
  predicate IsLocationWord(token: string) {
    !IsJsonFlag(token) && !StartsWith(token, "--")
  }

  function LocationWords(tokens: seq<string>): (r: seq<string>)
    ensures forall w | w in r :: w in tokens && IsLocationWord(w)
    ensures forall w | w in tokens && IsLocationWord(w) :: w in r
  {
    if |tokens| == 0 then []
    else (if IsLocationWord(tokens[0]) then [tokens[0]] else []) + LocationWords(tokens[1..])
  }

  predicate HasJsonFlag(tokens: seq<string>) {
    exists i | 0 <= i < |tokens| :: IsJsonFlag(tokens[i])
  }

  datatype ParsedArgs = ParsedArgs(location: string, json: bool)

  /** The line after "/weather", trimmed; None when the line does not start with it. */
  function ArgumentText(input: Option<string>): (r: Option<string>)
    ensures r.Some? <==> input.Some? && StartsWith(Trim(input.value), CommandName)
    ensures r.Some? ==> r.value == Trim(Trim(input.value)[|CommandName|..])
  {
    if input.None? then None
    else
      var t := Trim(input.value);
      if !StartsWith(t, CommandName) then None else Some(Trim(t[|CommandName|..]))
  }

  /** parseArgs: no arguments give an empty location and no flag; otherwise the JSON flag
      is set when any token is --json or -j (any case), and the location is the remaining
      non-option tokens joined by single spaces. */
  function ParseArgs(input: Option<string>): (r: ParsedArgs)
    ensures ArgumentText(input).None? || ArgumentText(input) == Some("") ==> r == ParsedArgs("", false)
    ensures ArgumentText(input).Some? ==>
      r.json == HasJsonFlag(Words(ArgumentText(input).value))
      && r.location == Trim(Join(LocationWords(Words(ArgumentText(input).value)), " "))
  {
    match ArgumentText(input)
    case None => ParsedArgs("", false)
    case Some(rest) =>
      if |rest| == 0 then ParsedArgs("", false)
      else
        var tokens := Words(rest);
        ParsedArgs(Trim(Join(LocationWords(tokens), " ")), HasJsonFlag(tokens))
  }

  /** parseArgs' location builder: each location word appended in turn, a space before
      every word but the first. The words of a split are never empty. */
  method JoinLocation(tokens: seq<string>) returns (location: string)
    requires forall i | 0 <= i < |tokens| :: |tokens[i]| > 0
    ensures location == Join(LocationWords(tokens), " ")
  {
    location := "";
    var i := 0;
    while i < |tokens|
      invariant 0 <= i <= |tokens|
      invariant location == Join(LocationWords(tokens[..i]), " ")
    {
      var tok := tokens[i];
      var before := LocationWords(tokens[..i]);
      LocationStep(tokens, i);
      if IsLocationWord(tok) {
        JoinSnoc(before, tok, " ");
        if |location| > 0 {
          location := location + " ";
        }
        location := location + tok;
        assert location == Join(before + [tok], " ");
      } else {
        assert LocationWords(tokens[..i + 1]) == before;
      }
      assert location == Join(LocationWords(tokens[..i + 1]), " ");
      i := i + 1;
    }
    assert tokens[..i] == tokens;
  }

  /** One more token adds itself to the location words exactly when it is one; the words
      so far join to "" only when there are none. */
  lemma LocationStep(tokens: seq<string>, i: nat)
    requires i < |tokens| && forall k | 0 <= k < |tokens| :: |tokens[k]| > 0
    ensures LocationWords(tokens[..i + 1])
      == LocationWords(tokens[..i]) + (if IsLocationWord(tokens[i]) then [tokens[i]] else [])
    ensures |Join(LocationWords(tokens[..i]), " ")| == 0 <==> |LocationWords(tokens[..i])| == 0
  {
    assert tokens[..i + 1] == tokens[..i] + [tokens[i]];
    LocationWordsAppend(tokens[..i], [tokens[i]]);
    assert LocationWords([tokens[i]]) == if IsLocationWord(tokens[i]) then [tokens[i]] else [];
    forall w | w in LocationWords(tokens[..i])
      ensures |w| > 0
    {
      assert w in tokens[..i];
    }
    JoinNonEmpty(LocationWords(tokens[..i]));
  }

  /** Filtering distributes over concatenation. */
  lemma {:induction false} LocationWordsAppend(a: seq<string>, b: seq<string>)
    ensures LocationWords(a + b) == LocationWords(a) + LocationWords(b)
  {
    if |a| > 0 {
      assert (a + b)[1..] == a[1..] + b;
      LocationWordsAppend(a[1..], b);
    } else {
      assert a + b == b;
    }
  }

  /** Joining non-empty words gives "" only for no words. */
  lemma JoinNonEmpty(ws: seq<string>)
    requires forall w | w in ws :: |w| > 0
    ensures |Join(ws, " ")| == 0 <==> |ws| == 0
  {
    if |ws| > 0 {
      assert ws[0] in ws;
    }
  }

  /** Appending a word after at least one other adds the separator and the word. */
  lemma {:induction false} JoinSnoc(ws: seq<string>, w: string, sep: string)
    ensures Join(ws + [w], sep) == if |ws| == 0 then w else Join(ws, sep) + sep + w
  {
    if |ws| > 1 {
      assert (ws + [w])[1..] == ws[1..] + [w];
      JoinSnoc(ws[1..], w, sep);
    } else if |ws| == 1 {
      assert (ws + [w])[1..] == [w];
    } else {
      assert ws + [w] == [w];
    }
  }

  /** The location both texts use: the parsed one, or San Francisco when it is blank. */
  function Location(input: Option<string>): (r: string)
    ensures IsBlank(ParseArgs(input).location) ==> r == DefaultCity
    ensures !IsBlank(ParseArgs(input).location) ==> r == ParseArgs(input).location
  {
    var parsed := ParseArgs(input);
    if IsBlank(parsed.location) then DefaultCity else parsed.location
  }

  const RequestPrefix: string := "What is the current weather and 5-day forecast for "

  /** toUserRequest: the question about the location. */
  function ToUserRequest(input: Option<string>): (r: string)
    ensures StartsWith(r, RequestPrefix) && EndsWith(r, Location(input) + "?")
    ensures |r| == |RequestPrefix| + |Location(input)| + 1
  {
    ConcatEnds(RequestPrefix, Location(input) + "?");
    RequestPrefix + (Location(input) + "?")
  }

  const JsonOnlyLine: string := "Return only the JSON tool output."

  const PromptHead: string := "User requested weather via /weather.\n"
  const PromptRules: string :=
    "Get current weather + a 5-day forecast.\n"
    + "Use the get_weather_forecast tool.\n"
    + "When summarizing results, use the plain-language condition text.\n"
    + "Do not mention numeric condition codes.\n"
    + "When calling the tool:\n"
    + "- Put only the place name in city (no comma qualifiers).\n"
    + "- Put disambiguation into country_code/admin1/admin2 when available (e.g. US + California).\n"
    + "- If ambiguous, ask a single clarification question instead of guessing."

  /** The prompt without the optional JSON line and without the final newline. */
  function PromptBody(location: string): (r: string)
    ensures StartsWith(r, PromptHead) && EndsWith(r, PromptRules)
  {
    var line := "Location input: \"" + location + "\".\n";
    ConcatEnds(PromptHead, line + PromptRules);
    ConcatEnds(line, PromptRules);
    assert EndsWith(PromptHead + (line + PromptRules), PromptRules) by {
      var whole := PromptHead + (line + PromptRules);
      assert whole[|whole| - |PromptRules|..] == (line + PromptRules)[|line|..];
    }
    PromptHead + (line + PromptRules)
  }

  /** toLlmPrompt: the instructions, naming the location, ending with the JSON-only line
      exactly when the flag is set. */
  function ToLlmPrompt(input: Option<string>): (r: string)
    ensures ParseArgs(input).json ==> r == PromptBody(Location(input)) + "\n" + JsonOnlyLine
    ensures !ParseArgs(input).json ==> r == PromptBody(Location(input))
  {
    var parsed := ParseArgs(input);
    var body := PromptBody(Location(input)) + "\n";
    var text := if parsed.json then body + JsonOnlyLine + "\n" else body;
    PromptTrimmed(Location(input), parsed.json);
    Trim(text)
  }

  lemma PromptTrimmed(location: string, json: bool)
    ensures var body := PromptBody(location);
      Trim(if json then body + "\n" + JsonOnlyLine + "\n" else body + "\n")
        == if json then body + "\n" + JsonOnlyLine else body
  {
    var body := PromptBody(location);
    var kept := if json then body + "\n" + JsonOnlyLine else body;
    assert kept[0] == body[0] == PromptHead[0];
    assert PromptRules[|PromptRules| - 1] == '.';
    assert body[|body| - 1] == PromptRules[|PromptRules| - 1];
    assert kept[|kept| - 1] == '.';
    TrimDropsTail(kept, "\n");
    if json {
      assert body + "\n" + JsonOnlyLine + "\n" == kept + "\n";
    }
  }
}
