/** The slash-command palette: whether it is open and which match is selected, driven by
    the composer text. The composer is a string; its own reaction to a key it receives is
    an input (`edited`), since the text area is not part of this model. */
module SlashPalette {
  import opened Wrappers
  import opened JavaString
  import opened Keys
  import opened SlashCommands

  /** handled, and the text to submit (the key command the palette forwards is left out). */
  datatype PaletteUpdate = PaletteUpdate(handled: bool, submitText: Option<string>)

  /** The palette stays open while the composer, after leading whitespace, starts with "/"
      and has no space yet. */
  predicate OpensFor(v: string) {
    StartsWith(StripLeading(v), "/") && ' ' !in StripLeading(v)
  }

  /** The arguments after the command token of a slash line, trimmed ("" when none). */
  function ArgumentsOf(v: string): (r: string)
    ensures !StartsWith(StripLeading(v), "/") || ' ' !in StripLeading(v) ==> r == ""
  {
    var trimmed := StripLeading(v);
    if StartsWith(trimmed, "/") && ' ' in trimmed then
      Trim(trimmed[IndexOf(trimmed, ' ')..])
    else ""
  }

  /** fillCommand: the command name, followed by the existing arguments, or by a space
      when there are none and one is asked for; a missing or blank name changes nothing. */
  function FillCommand(composer: string, cmdName: Option<string>, trailingSpace: bool): (r: string)
    ensures cmdName.None? || IsBlank(cmdName.value) ==> r == composer
    ensures cmdName.Some? && !IsBlank(cmdName.value) ==>
      var args := ArgumentsOf(composer);
      && (args == "" ==> r == cmdName.value + (if trailingSpace then " " else ""))
      && (args != "" ==> r == cmdName.value + " " + args)
  {
    if cmdName.None? || IsBlank(cmdName.value) then composer
    else
      var args := ArgumentsOf(composer);
      if args == "" then (if trailingSpace then cmdName.value + " " else cmdName.value)
      else cmdName.value + " " + args
  }

  predicate IsSlashTrigger(key: Key) {
    key.kind == Runes && key.runes == ['/']
  }

  /** Tab and Enter complete the composer with the selected match; Enter only while the
      composer holds nothing but a slash token. */
  function Completed(composer: string, matches: seq<SlashCommand>, selected: int, tab: bool): (r: string)
    ensures |matches| == 0 ==> r == composer
    ensures |matches| > 0 && (tab || Trim(composer) == "/" || (StartsWith(Trim(composer), "/") && ' ' !in Trim(composer))) ==>
      r == FillCommand(composer, matches[Clamp(selected, |matches|)].name, tab)
    ensures !tab && !(Trim(composer) == "/" || (StartsWith(Trim(composer), "/") && ' ' !in Trim(composer))) ==>
      r == composer
  {
    if |matches| == 0 then composer
    else if tab || Trim(composer) == "/" || (StartsWith(Trim(composer), "/") && ' ' !in Trim(composer)) then
      FillCommand(composer, matches[Clamp(selected, |matches|)].name, tab)
    else composer
  }

  /** What Enter submits: the trimmed composer, or nothing when that is empty. */
  function SubmitText(composer: string): (r: Option<string>)
    ensures r.None? <==> Trim(composer) == ""
    ensures r.Some? ==> r.value == Trim(composer) && Trim(r.value) == r.value
  {
    if Trim(composer) == "" then None else Some(Trim(composer))
  }

  class SlashCommandPalette {
    var open: bool
    var selectedIndex: int

    /** A closed palette has its selection reset. */
    predicate Valid()
      reads this
    {
      !open ==> selectedIndex == 0
    }

    constructor ()
      ensures Valid() && !open && selectedIndex == 0
    {
      open := false;
      selectedIndex := 0;
    }

    method Close()
      modifies this
      ensures !open && selectedIndex == 0
    {
      open := false;
      selectedIndex := 0;
    }

    method UpdateFromComposer(v: string)
      modifies this
      ensures OpensFor(v) ==> open && selectedIndex == old(selectedIndex)
      ensures !OpensFor(v) ==> !open && selectedIndex == 0
    {
      var trimmed := StripLeading(v);
      if !StartsWith(trimmed, "/") {
        Close();
        return;
      }
      if IndexOf(trimmed, ' ') >= 0 {
        Close();
        return;
      }
      open := true;
    }

    method ClampSelection(matchCount: int)
      modifies this
      ensures selectedIndex == Clamp(old(selectedIndex), matchCount) && open == old(open)
    {
      if matchCount <= 0 {
        selectedIndex := 0;
        return;
      }
      selectedIndex := Max(0, Min(selectedIndex, matchCount - 1));
    }

    /** openFromMouse: sets the composer to "/" and opens on all commands. */
    method OpenFromMouse(composer: string, commands: seq<SlashCommand>) returns (u: PaletteUpdate, composer': string)
      requires Valid()
      modifies this
      ensures Valid()
      ensures u == PaletteUpdate(true, None)
      ensures old(open) ==> composer' == composer && open && selectedIndex == old(selectedIndex)
      ensures !old(open) ==> composer' == "/" && open && selectedIndex == Clamp(old(selectedIndex), |commands|)
    {
      if open {
        return PaletteUpdate(true, None), composer;
      }
      composer' := "/";
      assert StripLeading(composer') == "/";
      UpdateFromComposer(composer');
      var matches := FilterForComposer(commands, Some(composer'));
      assert SlashTokenPrefix(Some(composer')) == Some("") by {
        assert BeforeSpace(composer'[1..]) == "";
      }
      ClampSelection(|matches|);
      u := PaletteUpdate(true, None);
    }

    /** The composer took the key itself: follow its new value, then clamp to the matches. */
    method Retype(commands: seq<SlashCommand>, edited: string)
      modifies this
      ensures open == OpensFor(edited)
      ensures selectedIndex == Clamp(if OpensFor(edited) then old(selectedIndex) else 0,
                                     |ComposerMatches(commands, Some(edited))|)
    {
      UpdateFromComposer(edited);
      var typed := FilterForComposer(commands, Some(edited));
      ClampSelection(|typed|);
    }

    /** Arrow and page keys move the selection within the `count` matches. */
    method Navigate(kind: KeyType, count: int)
      requires kind in {Up, Down, PageUp, PageDown}
      modifies this
      ensures open == old(open)
      ensures selectedIndex == Moved(kind, old(selectedIndex), count)
    {
      if count > 0 {
        if kind == Up {
          selectedIndex := Max(0, selectedIndex - 1);
        } else if kind == Down {
          selectedIndex := Min(count - 1, selectedIndex + 1);
        } else if kind == PageUp {
          selectedIndex := Max(0, selectedIndex - 5);
        } else {
          selectedIndex := Min(count - 1, selectedIndex + 5);
        }
      }
    }

    /** Tab or Enter with the palette open: fills the selected command in (Enter only
        while the composer is still a bare command token) and closes. */
    method Complete(composer: string, matches: seq<SlashCommand>, tab: bool) returns (composer': string)
      modifies this
      ensures Valid() && !open && selectedIndex == 0
      ensures composer' == Completed(composer, matches, old(selectedIndex), tab)
    {
      ClampSelection(|matches|);
      composer' := composer;
      if |matches| > 0 {
        var trimmed := Trim(composer);
        if tab || trimmed == "/" || (StartsWith(trimmed, "/") && ' ' !in trimmed) {
          composer' := FillCommand(composer, matches[selectedIndex].name, tab);
        }
      }
      Close();
    }

    /** update for a key that reaches the open palette. */
    method KeyWhileOpen(key: Key, composer: string, commands: seq<SlashCommand>, edited: string)
      returns (u: PaletteUpdate, composer': string)
      requires open
      modifies this
      ensures Valid()
      ensures open ==> selectedIndex == Clamp(selectedIndex, |ComposerMatches(commands, Some(composer'))|)
      ensures key.kind == Escape ==>
        u == PaletteUpdate(true, None) && composer' == composer && !open && selectedIndex == 0
      ensures key.kind in {Up, Down, PageUp, PageDown} ==>
        var n := |ComposerMatches(commands, Some(composer))|;
        && u == PaletteUpdate(true, None) && composer' == composer && open
        && selectedIndex == Moved(key.kind, Clamp(old(selectedIndex), n), n)
      ensures key.kind == TabKey ==>
        u == PaletteUpdate(true, None) && !open && selectedIndex == 0
        && composer' == Completed(composer, ComposerMatches(commands, Some(composer)), old(selectedIndex), true)
      ensures key.kind == EnterKey ==>
        !open && selectedIndex == 0
        && composer' == Completed(composer, ComposerMatches(commands, Some(composer)), old(selectedIndex), false)
        && u == PaletteUpdate(true, SubmitText(composer'))
      ensures key.kind !in {Escape, Up, Down, PageUp, PageDown, TabKey, EnterKey} ==>
        u == PaletteUpdate(true, None) && composer' == edited && open == OpensFor(edited)
        && selectedIndex == Clamp(if OpensFor(edited) then Clamp(old(selectedIndex), |ComposerMatches(commands, Some(composer))|) else 0,
                                  |ComposerMatches(commands, Some(edited))|)
    {
      composer' := composer;
      if key.kind == Escape {
        Close();
        return PaletteUpdate(true, None), composer';
      }
      var matches := FilterForComposer(commands, Some(composer));
      if key.kind == TabKey || key.kind == EnterKey {
        composer' := Complete(composer, matches, key.kind == TabKey);
        var submit := SubmitText(composer');
        return PaletteUpdate(true, if key.kind == TabKey then None else submit), composer';
      }
      ClampSelection(|matches|);
      if key.kind in {Up, Down, PageUp, PageDown} {
        Navigate(key.kind, |matches|);
        return PaletteUpdate(true, None), composer';
      }
      composer' := edited;
      Retype(commands, edited);
      return PaletteUpdate(true, None), composer';
    }

    /** update for one key press. `edited` is the composer after the text area handles the
        key, used where the palette passes the key on. */
    method Update(key: Key, composer: string, waiting: bool, commands: seq<SlashCommand>, edited: string)
      returns (u: PaletteUpdate, composer': string)
      requires Valid()
      modifies this
      ensures Valid()
      ensures !waiting && open ==> selectedIndex == Clamp(selectedIndex, |ComposerMatches(commands, Some(composer'))|)
      ensures waiting ==>
        u == PaletteUpdate(false, None) && composer' == composer
        && open == old(open) && selectedIndex == old(selectedIndex)
      ensures !waiting && !old(open) && !IsSlashTrigger(key) ==>
        u == PaletteUpdate(false, None) && composer' == composer
        && !open && selectedIndex == old(selectedIndex)
      ensures !waiting && !old(open) && IsSlashTrigger(key) ==>
        u == PaletteUpdate(true, None) && composer' == edited && open == OpensFor(edited)
        && selectedIndex == Clamp(if OpensFor(edited) then old(selectedIndex) else 0,
                                  |ComposerMatches(commands, Some(edited))|)
      ensures !waiting && old(open) && key.kind == Escape ==>
        u == PaletteUpdate(true, None) && composer' == composer && !open && selectedIndex == 0
      ensures !waiting && old(open) && key.kind in {Up, Down, PageUp, PageDown} ==>
        var n := |ComposerMatches(commands, Some(composer))|;
        && u == PaletteUpdate(true, None) && composer' == composer && open
        && selectedIndex == Moved(key.kind, Clamp(old(selectedIndex), n), n)
      ensures !waiting && old(open) && key.kind == TabKey ==>
        u == PaletteUpdate(true, None) && !open && selectedIndex == 0
        && composer' == Completed(composer, ComposerMatches(commands, Some(composer)), old(selectedIndex), true)
      ensures !waiting && old(open) && key.kind == EnterKey ==>
        !open && selectedIndex == 0
        && composer' == Completed(composer, ComposerMatches(commands, Some(composer)), old(selectedIndex), false)
        && u == PaletteUpdate(true, SubmitText(composer'))
      ensures !waiting && old(open) && key.kind !in {Escape, Up, Down, PageUp, PageDown, TabKey, EnterKey} ==>
        u == PaletteUpdate(true, None) && composer' == edited && open == OpensFor(edited)
        && selectedIndex == Clamp(if OpensFor(edited) then Clamp(old(selectedIndex), |ComposerMatches(commands, Some(composer))|) else 0,
                                  |ComposerMatches(commands, Some(edited))|)
    {
      composer' := composer;
      if waiting {
        return PaletteUpdate(false, None), composer';
      }
      if !open {
        if !IsSlashTrigger(key) {
          return PaletteUpdate(false, None), composer';
        }
        composer' := edited;
        Retype(commands, edited);
        return PaletteUpdate(true, None), composer';
      }
      u, composer' := KeyWhileOpen(key, composer, commands, edited);
    }

    /** click on the item at `index`: submits that match's name and closes. */
    method Click(index: int, composer: string, commands: seq<SlashCommand>) returns (u: PaletteUpdate)
      requires Valid()
      modifies this
      ensures Valid()
      ensures !old(open) ==> u == PaletteUpdate(false, None) && !open && selectedIndex == old(selectedIndex)
      ensures old(open) ==> !open && selectedIndex == 0 && u.handled
      ensures old(open) ==>
        var matches := ComposerMatches(commands, Some(composer));
        && (|matches| == 0 ==> u.submitText.None?)
        && (|matches| > 0 ==>
              var name := matches[Clamp(index, |matches|)].name;
              u.submitText == if name.None? || IsBlank(name.value) then None else name)
    {
      if !open {
        return PaletteUpdate(false, None);
      }
      var matches := FilterForComposer(commands, Some(composer));
      ClampSelection(|matches|);
      if |matches| == 0 {
        Close();
        return PaletteUpdate(true, None);
      }
      selectedIndex := Max(0, Min(index, |matches| - 1));
      var submit := matches[selectedIndex].name;
      Close();
      u := if submit.None? || IsBlank(submit.value) then PaletteUpdate(true, None) else PaletteUpdate(true, submit);
    }
  }

  /** A test double whose name is "/weather" or "/clear". */
  function TestCommand(name: string): SlashCommand {
    SlashCommand(Some(name), "", NameOrArguments, false)
  }

  const TestComposer: string := "/weather" + " San Francisco"

  lemma BeforeSpaceAt(s: string, k: int)
    requires 0 <= k < |s| && s[k] == ' '
    ensures |BeforeSpace(s)| <= k
  {
  }

  lemma BeforeSpaceOf(a: string, b: string)
    requires ' ' !in a && |b| > 0 && b[0] == ' '
    ensures BeforeSpace(a + b) == a
  {
    var r := BeforeSpace(a + b);
    if |r| < |a| {
      assert false;
    }
    if |r| > |a| {
      BeforeSpaceAt(a + b, |a|);
      assert false;
    }
    assert r == (a + b)[..|a|];
  }

  /** The token of "/" + a command word + " " + arguments is the word. */
  lemma TokenOfCommandLine(word: string, rest: string)
    requires forall i | 0 <= i < |word| :: !IsTrimmable(word[i])
    requires |rest| > 0 && rest[0] == ' '
    ensures SlashTokenPrefix(Some("/" + word + rest)) == Some(word)
  {
    var c := "/" + word + rest;
    SlashNotStripped(c);
    assert c[1..] == word + rest;
    NoSpaceIn(word);
    BeforeSpaceOf(word, rest);
    TrimNoOp(word);
  }

  lemma SlashNotStripped(c: string)
    requires |c| > 0 && c[0] == '/'
    ensures StripLeading(c) == c && StartsWith(c, "/")
  {
    assert !IsWhitespace(c[0]);
    assert StripLeading(c) == c;
    assert c[..1] == "/";
  }

  lemma NoSpaceIn(word: string)
    requires forall i | 0 <= i < |word| :: !IsTrimmable(word[i])
    ensures ' ' !in word
  {
    forall i | 0 <= i < |word| ensures word[i] != ' ' {
      assert !IsTrimmable(word[i]);
    }
  }

  lemma TestComposerToken()
    ensures SlashTokenPrefix(Some(TestComposer)) == Some("weather")
  {
    var word, rest := "weather", " San Francisco";
    assert TestComposer == "/" + word + rest;
    TokenOfCommandLine(word, rest);
  }

  lemma WeatherLower()
    ensures ToLower("weather") == "weather"
  {
    forall i | 0 <= i < 7 ensures LowerChar("weather"[i]) == "weather"[i] { }
  }

  lemma WeatherListed()
    ensures Listed(TestCommand("/weather"), "weather")
  {
    var name := "/weather";
    assert name[1..] == "weather";
    WeatherLower();
  }

  lemma ClearNotListed()
    ensures !Listed(TestCommand("/clear"), "weather")
  {
    var name := "/clear";
    assert ToLower(name[1..])[0] == LowerChar('c');
  }

  lemma TestCommandsListed(commands: seq<SlashCommand>)
    requires commands == [TestCommand("/weather"), TestCommand("/clear")]
    ensures ComposerMatches(commands, Some(TestComposer)) == [commands[0]]
  {
    TestComposerToken();
    WeatherLower();
    WeatherListed();
    ClearNotListed();
    var tail := commands[1..];
    assert ListedFor(tail[1..], "weather") == [];
    assert ListedFor(tail, "weather") == [];
    assert ListedFor(commands, "weather") == [commands[0]] + ListedFor(tail, "weather");
  }

  /** Opening from the mouse and then clicking the first match submits only the command
      name, even when the composer already holds arguments. */
  method ClickSubmitsCommandNameOnly() returns (u: PaletteUpdate)
    ensures u == PaletteUpdate(true, Some("/weather"))
  {
    var palette := new SlashCommandPalette();
    var commands := [TestCommand("/weather"), TestCommand("/clear")];
    var _, typed := palette.OpenFromMouse("", commands);
    TestCommandsListed(commands);
    u := palette.Click(0, TestComposer, commands);
  }
}
