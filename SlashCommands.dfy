/** The slash-command registry helpers: the token after "/" the composer is typing, the
    commands whose names start with it, and the command an input line invokes. */
module SlashCommands {
  import opened Wrappers
  import opened JavaString

  /** How a command recognises an invocation (the trimmed input line):
      - ExactName: the line is the name;
      - ExactNameAnyCase: the line is the name, ignoring case;
      - NameOrArguments: the line is the name, or the name, a space and arguments;
      - NameOrArgumentsAnyCase: the same, after lower-casing the line. */
  datatype Invocation = ExactName | ExactNameAnyCase | NameOrArguments | NameOrArgumentsAnyCase

  /** A command as the palette sees it; `name` includes the leading slash and may be null. */
  datatype SlashCommand = SlashCommand(name: Option<string>, description: string, invocation: Invocation,
                                       quits: bool)

  /** The built-in quit command. */
  const Quit: SlashCommand := SlashCommand(Some("/quit"), "Quit", ExactName, true)

  /** The built-in commands that start a new session: "/new" exactly, "/clear" in any case. */
  const New: SlashCommand := SlashCommand(Some("/new"), "Start a new chat session (new conversation id)", ExactName, false)
  const Clear: SlashCommand := SlashCommand(Some("/clear"), "Clear chat and start a new session", ExactNameAnyCase, false)

  /** matchesInvocation of a command: a command without a name is never invoked; the line
      is at least as long as the name, and exactly as long for the commands that take no
      arguments; a command whose name is lower case is invoked by its own name. */
  predicate Invokes(c: SlashCommand, input: string)
    ensures Invokes(c, input) ==> c.name.Some? && |input| >= |c.name.value|
    ensures Invokes(c, input) && c.invocation in {ExactName, ExactNameAnyCase} ==> |input| == |c.name.value|
    ensures c.name.Some? && input == c.name.value && ToLower(input) == input ==> Invokes(c, input)
  {
    c.name.Some? &&
    match c.invocation
    case ExactName => input == c.name.value
    case ExactNameAnyCase => EqualsIgnoreCase(input, c.name.value)
    case NameOrArguments => input == c.name.value || StartsWith(input, c.name.value + " ")
    case NameOrArgumentsAnyCase =>
      ToLower(input) == c.name.value || StartsWith(ToLower(input), c.name.value + " ")
  }

  /** The commands that ignore case answer every case variant of a line alike. */
  lemma AnyCaseBlind(c: SlashCommand, a: string, b: string)
    requires c.invocation in {ExactNameAnyCase, NameOrArgumentsAnyCase} && ToLower(a) == ToLower(b)
    ensures Invokes(c, a) <==> Invokes(c, b)
  {
  }

  /** "/clear" answers "/CLEAR" but no line with arguments; "/new" answers only "/new". */
  lemma ClearAnyCase()
    ensures Invokes(Clear, "/CLEAR") && Invokes(Clear, "/Clear")
    ensures !Invokes(Clear, "/clear x")
    ensures Invokes(New, "/new") && !Invokes(New, "/NEW")
  {
    assert ToLower("/CLEAR") == "/clear";
    assert ToLower("/Clear") == "/clear";
    assert ToLower("/clear") == "/clear";
    assert "/NEW"[1] != "/new"[1];
  }

  /** Quit answers only the exact line "/quit", and quits. */
  lemma QuitExact(input: string)
    ensures Invokes(Quit, input) <==> input == "/quit"
    ensures Quit.quits
  {
  }

  /** The text of `s` before its first space (all of it when there is none). */
  function BeforeSpace(s: string): (r: string)
    ensures StartsWith(s, r) && ' ' !in r
    ensures |r| == |s| || s[|r|] == ' '
  {
    var space := IndexOf(s, ' ');
    if space >= 0 then s[..space] else s
  }

  /** slashTokenPrefix: after leading whitespace and "/", the text up to the first space,
      trimmed; None when there is no leading "/". */
  function SlashTokenPrefix(composerValue: Option<string>): (r: Option<string>)
    ensures r.Some? <==> composerValue.Some? && StartsWith(StripLeading(composerValue.value), "/")
    ensures r.Some? ==> r.value == Trim(BeforeSpace(StripLeading(composerValue.value)[1..]))
    ensures r.Some? ==> ' ' !in r.value
  {
    if composerValue.None? then None
    else
      var trimmed := StripLeading(composerValue.value);
      if !StartsWith(trimmed, "/") then None
      else
        var token := BeforeSpace(trimmed[1..]);
        TrimChars(token);
        Some(Trim(token))
  }

  /** A command the palette lists for the (lower-cased) prefix `p`. */
  predicate Listed(c: SlashCommand, p: string) {
    c.name.Some? && |c.name.value| > 1 && StartsWith(ToLower(c.name.value[1..]), p)
  }

  /** The commands listed for `p`, in registry order. */
  function ListedFor(commands: seq<SlashCommand>, p: string): (r: seq<SlashCommand>)
    ensures |r| <= |commands|
    ensures forall i | 0 <= i < |r| :: Listed(r[i], p)
  {
    if |commands| == 0 then []
    else (if Listed(commands[0], p) then [commands[0]] else []) + ListedFor(commands[1..], p)
  }

  /** Listing distributes over concatenation, so it keeps the registry order. */
  lemma {:induction false} ListedForAppend(a: seq<SlashCommand>, b: seq<SlashCommand>, p: string)
    ensures ListedFor(a + b, p) == ListedFor(a, p) + ListedFor(b, p)
    decreases |a|
  {
    if |a| == 0 {
      assert a + b == b;
    } else {
      assert (a + b)[0] == a[0];
      assert (a + b)[1..] == a[1..] + b;
      ListedForAppend(a[1..], b, p);
      var head := if Listed(a[0], p) then [a[0]] else [];
      calc {
        ListedFor(a + b, p);
        head + ListedFor(a[1..] + b, p);
        head + (ListedFor(a[1..], p) + ListedFor(b, p));
        (head + ListedFor(a[1..], p)) + ListedFor(b, p);
      }
    }
  }

  /** The listing holds exactly the listed commands of the registry. */
  lemma {:induction false} ListedForMembers(commands: seq<SlashCommand>, p: string, c: SlashCommand)
    ensures c in ListedFor(commands, p) <==> c in commands && Listed(c, p)
    decreases |commands|
  {
    if |commands| > 0 {
      ListedForMembers(commands[1..], p, c);
      assert commands == [commands[0]] + commands[1..];
    }
  }

  /** filterForComposer as a value: nothing without a slash token, everything for a bare
      "/", otherwise the commands listed for the lower-cased token. */
  function ComposerMatches(commands: seq<SlashCommand>, composerValue: Option<string>): (r: seq<SlashCommand>)
    ensures SlashTokenPrefix(composerValue).None? ==> r == []
    ensures SlashTokenPrefix(composerValue) == Some("") ==> r == commands
    ensures |r| <= |commands|
  {
    match SlashTokenPrefix(composerValue)
    case None => []
    case Some(prefix) => if prefix == "" then commands else ListedFor(commands, ToLower(prefix))
  }

  /** filterForComposer's loop: the commands listed for `p`, in order. */
  method ListCommands(commands: seq<SlashCommand>, p: string) returns (out: seq<SlashCommand>)
    ensures out == ListedFor(commands, p)
  {
    out := [];
    var i := 0;
    while i < |commands|
      invariant 0 <= i <= |commands|
      invariant out == ListedFor(commands[..i], p)
    {
      var c := commands[i];
      ListedForAppend(commands[..i], [c], p);
      assert commands[..i + 1] == commands[..i] + [c];
      assert [c][1..] == [];
      assert ListedFor([c], p) == if Listed(c, p) then [c] else [];
      if Listed(c, p) {
        out := out + [c];
      }
      i := i + 1;
    }
    assert commands[..i] == commands;
  }

  /** filterForComposer */
  method FilterForComposer(commands: seq<SlashCommand>, composerValue: Option<string>)
    returns (out: seq<SlashCommand>)
    ensures out == ComposerMatches(commands, composerValue)
  {
    var prefix := SlashTokenPrefix(composerValue);
    if prefix.None? {
      return [];
    }
    if prefix.value == "" {
      return commands;
    }
    out := ListCommands(commands, ToLower(prefix.value));
  }

  /** The first command in `commands` invoked by the line `t`. */
  function FirstInvoked(commands: seq<SlashCommand>, t: string): (r: Option<SlashCommand>)
    ensures r.Some? ==> r.value in commands && Invokes(r.value, t)
    ensures r.None? <==> forall c | c in commands :: !Invokes(c, t)
    ensures r.Some? ==>
      exists i | 0 <= i < |commands| :: commands[i] == r.value && forall j | 0 <= j < i :: !Invokes(commands[j], t)
  {
    if |commands| == 0 then None
    else if Invokes(commands[0], t) then Some(commands[0])
    else
      var r := FirstInvoked(commands[1..], t);
      if r.Some? then
        var i :| 0 <= i < |commands[1..]| && commands[1..][i] == r.value
          && forall j | 0 <= j < i :: !Invokes(commands[1..][j], t);
        assert commands[i + 1] == r.value;
        r
      else r
  }

  /** matchInvocation: the first command that the trimmed line invokes. */
  method MatchInvocation(commands: seq<SlashCommand>, input: Option<string>) returns (r: Option<SlashCommand>)
    ensures input.None? ==> r.None?
    ensures input.Some? ==> r == FirstInvoked(commands, Trim(input.value))
  {
    if input.None? {
      return None;
    }
    var t := Trim(input.value);
    var i := 0;
    while i < |commands|
      invariant 0 <= i <= |commands|
      invariant FirstInvoked(commands, t) == FirstInvoked(commands[i..], t)
    {
      if Invokes(commands[i], t) {
        return Some(commands[i]);
      }
      assert commands[i..][1..] == commands[i + 1..];
      i := i + 1;
    }
    return None;
  }
}
