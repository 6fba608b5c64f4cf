/** The friendly name the tool-call banner shows for a tool. The banner's box, border,
    colours and clipping are left out. */
module ToolBanner {
  import opened Wrappers
  import opened JavaString

  /** The weather tool's registered name. */
  const WeatherToolName: string := "get_weather_forecast"

  /** String.replace(char, char) */
  function ReplaceChar(s: string, from: char, to: char): (r: string)
    ensures |r| == |s|
    ensures forall i | 0 <= i < |s| :: r[i] == (if s[i] == from then to else s[i])
  {
    if |s| == 0 then "" else [if s[0] == from then to else s[0]] + ReplaceChar(s[1..], from, to)
  }

  /** displayName: "tool" for a missing or blank name, "weather" for the weather tool,
      otherwise the name without one leading "get_", underscores as spaces, trimmed. */
  function DisplayName(toolName: Option<string>): (r: string)
    ensures r == [] || (!IsTrimmable(r[0]) && !IsTrimmable(r[|r| - 1]))
  {
    if toolName.None? || IsBlank(toolName.value) then ToolWord
    else if toolName.value == WeatherToolName then WeatherWord
    else Trim(SpacedName(toolName.value))
  }

  const ToolWord: string := "tool"
  const WeatherWord: string := "weather"

  /** The name without one leading "get_", with its underscores turned into spaces. */
  function SpacedName(name: string): (r: string)
    ensures '_' !in r
    ensures StartsWith(name, "get_") ==> r == ReplaceChar(name[4..], '_', ' ')
    ensures !StartsWith(name, "get_") ==> r == ReplaceChar(name, '_', ' ')
  {
    var normalized := if StartsWith(name, "get_") then name[4..] else name;
    ReplaceChar(normalized, '_', ' ')
  }

  /** A missing or blank name shows as "tool", the weather tool as "weather", and no
      display name contains an underscore. */
  lemma DisplayNameCases(toolName: Option<string>)
    ensures toolName.None? || IsBlank(toolName.value) ==> DisplayName(toolName) == "tool"
    ensures toolName == Some(WeatherToolName) ==> DisplayName(toolName) == "weather"
    ensures '_' !in DisplayName(toolName)
  {
    WeatherNameNotBlank();
    if !(toolName.None? || IsBlank(toolName.value)) && toolName.value != WeatherToolName {
      TrimChars(SpacedName(toolName.value));
    }
  }

  lemma WeatherNameNotBlank()
    ensures !IsBlank(WeatherToolName)
  {
    assert WeatherToolName[0] == 'g';
  }

  /** The name in the banner, without styling: "tool call: " and the display name. */
  function BannerLabel(toolName: Option<string>): (r: string)
    ensures EndsWith(r, DisplayName(toolName))
  {
    ConcatEnds("tool call: ", DisplayName(toolName));
    "tool call: " + DisplayName(toolName)
  }

  lemma TrimKeepsFramed(s: string)
    requires |s| > 0 && !IsTrimmable(s[0]) && !IsTrimmable(s[|s| - 1])
    ensures Trim(s) == s
  {
    assert TrimStart(s) == s;
  }

  lemma ReplaceAbsent(s: string, from: char, to: char)
    requires from !in s
    ensures ReplaceChar(s, from, to) == s
  {
    assert forall i | 0 <= i < |s| :: s[i] != from;
  }

  /** A name without underscores is neither the weather tool nor has a "get_" prefix. */
  lemma NoUnderscoreName(r: string)
    requires '_' !in r
    ensures r != WeatherToolName && !StartsWith(r, "get_")
  {
    assert WeatherToolName[3] == '_';
  }

  lemma PlainDisplayName(name: string)
    requires !IsBlank(name) && name != WeatherToolName && !StartsWith(name, "get_")
    ensures DisplayName(Some(name)) == Trim(ReplaceChar(name, '_', ' '))
  {
  }

  /** A name with a leading "get_" (other than the weather tool) shows as the rest of the
      name, underscores as spaces, trimmed. */
  lemma PrefixedDisplayName(n: string)
    requires "get_" + n != WeatherToolName
    ensures DisplayName(Some("get_" + n)) == Trim(ReplaceChar(n, '_', ' '))
  {
    var name := "get_" + n;
    assert name[0] == 'g';
    assert !IsBlank(name);
    assert StartsWith(name, "get_") && name[4..] == n;
  }

  /** "get_x_y" shows as "x y". */
  lemma PrefixedExample()
    ensures DisplayName(Some("get_x_y")) == "x y"
  {
    ExampleParts();
    PrefixedDisplayName("x_y");
  }

  /** The literal steps of PrefixedExample. */
  lemma ExampleParts()
    ensures "get_" + "x_y" == "get_x_y"
    ensures Trim(ReplaceChar("x_y", '_', ' ')) == "x y"
  {
    assert ReplaceChar("x_y", '_', ' ') == "x y";
    TrimKeepsFramed("x y");
  }

  /** Replacing distributes over concatenation. */
  lemma ReplaceAppend(a: string, b: string, from: char, to: char)
    ensures ReplaceChar(a + b, from, to) == ReplaceChar(a, from, to) + ReplaceChar(b, from, to)
  {
    var l, r := ReplaceChar(a + b, from, to), ReplaceChar(a, from, to) + ReplaceChar(b, from, to);
    assert forall i | 0 <= i < |l| :: l[i] == r[i];
  }

  /** "get_" twice in front of a name is never the weather tool. */
  lemma DoublePrefix(n: string)
    ensures "get_" + ("get_" + n) == "get_get_" + n
    ensures "get_" + ("get_" + n) != WeatherToolName
  {
    assert ("get_" + ("get_" + n))[4] == 'g';
    assert WeatherToolName[4] == 'w';
  }

  /** A leading "get_" becomes "get " when underscores turn into spaces. */
  lemma SpacedGet(n: string)
    ensures ReplaceChar("get_" + n, '_', ' ') == "get " + ReplaceChar(n, '_', ' ')
  {
    ReplaceAppend("get_", n, '_', ' ');
    assert ReplaceChar("get_", '_', ' ') == "get ";
  }

  /** Only one leading "get_" is dropped: a second one stays, as "get ". */
  lemma PrefixDroppedOnce(n: string)
    ensures DisplayName(Some("get_get_" + n)) == Trim("get " + ReplaceChar(n, '_', ' '))
  {
    DoublePrefix(n);
    PrefixedDisplayName("get_" + n);
    SpacedGet(n);
  }

  /** A display name that is not blank shows as itself: naming is idempotent. */
  lemma DisplayNameStable(toolName: Option<string>)
    requires !IsBlank(DisplayName(toolName))
    ensures DisplayName(Some(DisplayName(toolName))) == DisplayName(toolName)
  {
    var r := DisplayName(toolName);
    DisplayNameCases(toolName);
    NoUnderscoreName(r);
    PlainDisplayName(r);
    ReplaceAbsent(r, '_', ' ');
    TrimKeepsFramed(r);
  }

  /** The weather tool's banner reads "tool call: weather". */
  lemma WeatherBanner()
    ensures BannerLabel(Some(WeatherToolName)) == "tool call: weather"
  {
    DisplayNameCases(Some(WeatherToolName));
  }
}
