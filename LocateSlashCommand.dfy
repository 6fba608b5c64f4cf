/** The /locate command: its invocation rule, the query it carries, and the two texts it
    sends to the model. */
module LocateSlash {
  import opened Wrappers
  import opened JavaString
  import opened SlashCommands

  const CommandName: string := "/locate"
  const Command: SlashCommand := SlashCommand(Some(CommandName), "Search places with Apple Maps", NameOrArgumentsAnyCase, false)

  /** The invocation rule: the lower-cased line is "/locate" or starts with "/locate ". */
  lemma CommandInvocation(input: string)
    ensures Invokes(Command, input) <==> ToLower(input) == "/locate" || StartsWith(ToLower(input), "/locate ")
  {
  }

  /** The text after "/locate" (any case), trimmed. */
  function QueryText(input: Option<string>): (r: Option<string>)
    ensures r.Some? <==> input.Some? && StartsWith(ToLower(Trim(input.value)), CommandName)
    ensures r.Some? ==> r.value == Trim(Trim(input.value)[|CommandName|..])
  {
    if input.None? then None
    else
      var t := Trim(input.value);
      if !StartsWith(ToLower(t), CommandName) then None else Some(Trim(t[|CommandName|..]))
  }

  predicate Quoted(s: string) {
    |s| >= 2 && s[0] == '"' && s[|s| - 1] == '"'
  }

  /** One pair of surrounding double quotes removed, if there is one. */
  function Unquote(rest: string): (r: string)
    ensures Quoted(rest) ==> "\"" + r + "\"" == rest
    ensures !Quoted(rest) ==> r == rest
  {
    if Quoted(rest) then
      var inner := rest[1..|rest| - 1];
      assert rest == [rest[0]] + inner + [rest[|rest| - 1]];
      inner
    else rest
  }

  /** parseQuery: "" unless the line starts with /locate; otherwise the rest, with one pair
      of surrounding double quotes removed. */
  function ParseQuery(input: Option<string>): (r: string)
    ensures QueryText(input).None? ==> r == ""
    ensures QueryText(input).Some? ==> r == Unquote(QueryText(input).value)
  {
    match QueryText(input)
    case None => ""
    case Some(rest) => Unquote(rest)
  }

  const FallbackRequest: string := "Find a place or location for me."

  /** toUserRequest: a generic request for a blank query, otherwise "Find <query> for me.". */
  function ToUserRequest(input: Option<string>): (r: string)
    ensures IsBlank(ParseQuery(input)) ==> r == FallbackRequest
    ensures !IsBlank(ParseQuery(input)) ==>
      StartsWith(r, "Find ") && EndsWith(r, ParseQuery(input) + " for me.")
  {
    var query := ParseQuery(input);
    if IsBlank(query) then FallbackRequest
    else
      ConcatEnds("Find ", query + " for me.");
      "Find " + (query + " for me.")
  }

  // "User " is kept as a separate literal so its first character is visible to proofs.
  const PromptHead: string := "User " + "requested location/place search via /locate.\n"
  const PromptGuide: string := GuideTools + GuideSearchPlaces + GuideGeocode + GuideRules + GuideLastLine
  const GuideTools: string := "You have two Apple Maps tools available:\n" + "\n"
  const GuideSearchPlaces: string :=
    "1. search_places - Search for businesses, POIs, or places by name/type.\n"
    + "   Use for: \"coffee shops\", \"Stripe\", \"restaurants near downtown\"\n"
    + "   Parameters:\n"
    + "   - query (required): Natural language search query\n"
    + "   - country_code (optional): ISO 3166-1 alpha-2 code like \"US\"\n"
    + "\n"
  const GuideGeocode: string :=
    "2. geocode_address - Convert a street address to coordinates.\n"
    + "   Use for: \"880 Harrison St, San Francisco, CA 94107\"\n"
    + "   Parameters:\n"
    + "   - address (required): Street address with city/state/country as known\n"
    + "   - country_code (optional): ISO 3166-1 alpha-2 code like \"US\"\n"
    + "\n"
  const GuideRules: string :=
    "Guidelines:\n"
    + "- If the query looks like a street address, use geocode_address.\n"
    + "- If the query is a place name, business, or category, use search_places.\n"
    + "- If ambiguous (e.g. just \"restaurants\"), ask for location context.\n"
    + "- Summarize results conversationally with name, address, and category.\n"
  const GuideLastLine: string := "- Include coordinates only if the user explicitly asks for them."

  lemma GuideFramed()
    ensures !IsTrimmable(PromptHead[0]) && !IsTrimmable(PromptGuide[|PromptGuide| - 1])
  {
    assert GuideLastLine[|GuideLastLine| - 1] == '.';
    ConcatEnds(PromptGuide[..|PromptGuide| - |GuideLastLine|], GuideLastLine);
    assert PromptGuide[|PromptGuide| - 1] == GuideLastLine[|GuideLastLine| - 1];
  }

  const QueryOpen: string := "Query: \""
  const QueryClose: string := "\".\n"

  function QueryLine(query: string): (r: string)
    ensures |r| > 0 && r[0] == 'Q'
  {
    QueryOpen + query + QueryClose
  }

  /** What follows the header: the Query line when the query is not blank, then a blank
      line. */
  function QueryPart(query: string): (r: string)
    ensures |r| > 0 && (r[0] == 'Q' <==> !IsBlank(query))
  {
    (if IsBlank(query) then "" else QueryLine(query)) + "\n"
  }

  /** toLlmPrompt: the header, a Query line exactly when the query is not blank, a blank
      line and the tool guide. */
  function ToLlmPrompt(input: Option<string>): (r: string)
    ensures r == PromptHead + QueryPart(ParseQuery(input)) + PromptGuide
  {
    var middle := QueryPart(ParseQuery(input));
    GuideFramed();
    TrimFramed(PromptHead, middle, PromptGuide, "\n");
    Trim(PromptHead + middle + PromptGuide + "\n")
  }

  /** The character after the header tells the two prompt shapes apart: 'Q' for the
      Query line, a newline without one. */
  lemma QueryLineIffNonBlank(input: Option<string>)
    ensures var r := ToLlmPrompt(input);
      |r| > |PromptHead| && (r[|PromptHead|] == 'Q' <==> !IsBlank(ParseQuery(input)))
  {
    QueryPartAfterHead(PromptHead, ParseQuery(input), PromptGuide);
  }

  lemma QueryPartAfterHead(head: string, query: string, guide: string)
    ensures var r := head + QueryPart(query) + guide;
      |r| > |head| && (r[|head|] == 'Q' <==> !IsBlank(query))
  {
    IndexAfter(head, QueryPart(query), guide);
  }
}
