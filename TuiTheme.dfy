/** Text layout helpers of the terminal theme: padding and centring by visible width,
    ANSI-aware truncation and newline stripping. Styles and colours are left out. */
module Theme {
  import opened Wrappers
  import opened JavaString
  import opened Keys

  const Esc: char := '\U{001B}'
  /** The SGR reset sequence ESC "[0m". */
  const AnsiReset: string := [Esc, '[', '0', 'm']
  const Ellipsis: string := "..."

  /** A character the pattern `[;\d]` accepts (`\d` is ASCII in Java by default). */
  predicate IsParamChar(c: char) {
    c == ';' || '0' <= c <= '9'
  }

  /** The length of the run of parameter characters at the start of `s`. */
  function ParamRun(s: string): (n: nat)
    ensures n <= |s|
    ensures forall k | 0 <= k < n :: IsParamChar(s[k])
    ensures n == |s| || !IsParamChar(s[n])
  {
    if |s| == 0 || !IsParamChar(s[0]) then 0 else 1 + ParamRun(s[1..])
  }

  /** The length of a match of ESC "[" `[;\d]*` "m" at the start of `s`, or 0 for none. */
  function AnsiMatchLength(s: string): (n: nat)
    ensures n == 0 || (3 <= n <= |s| && s[0] == Esc && s[1] == '[' && s[n - 1] == 'm')
    ensures n > 0 ==> forall k | 2 <= k < n - 1 :: IsParamChar(s[k])
  {
    if |s| >= 2 && s[0] == Esc && s[1] == '[' then
      var j := 2 + ParamRun(s[2..]);
      if j < |s| && s[j] == 'm' then j + 1 else 0
    else 0
  }

  /** stripAnsi: every match of the SGR pattern removed, scanning left to right. */
  function StripAnsi(s: string): (r: string)
    ensures |r| <= |s|
    decreases |s|
  {
    if |s| == 0 then ""
    else
      var n := AnsiMatchLength(s);
      if n > 0 then StripAnsi(s[n..]) else [s[0]] + StripAnsi(s[1..])
  }

  /** visualWidth */
  function VisualWidth(s: string): (r: nat)
    ensures r <= |s|
    ensures Esc !in s ==> r == |s|
  {
    if Esc in s then |StripAnsi(s)| else StripAnsiPlain(s); |StripAnsi(s)|
  }

  /** Text without escape characters is its own visible text. */
  lemma {:induction false} StripAnsiPlain(s: string)
    requires Esc !in s
    ensures StripAnsi(s) == s
    decreases |s|
  {
    if |s| > 0 {
      assert s[0] in s;
      assert AnsiMatchLength(s) == 0;
      assert forall c | c in s[1..] :: c in s;
      StripAnsiPlain(s[1..]);
      assert s == [s[0]] + s[1..];
    }
  }

  lemma {:induction false} ParamRunStops(params: string, rest: string)
    requires forall k | 0 <= k < |params| :: IsParamChar(params[k])
    requires |rest| > 0 && !IsParamChar(rest[0])
    ensures ParamRun(params + rest) == |params|
    decreases |params|
  {
    if |params| > 0 {
      assert (params + rest)[1..] == params[1..] + rest;
      ParamRunStops(params[1..], rest);
    } else {
      assert params + rest == rest;
    }
  }

  /** A complete SGR sequence in front of the text adds nothing visible. */
  lemma StripAnsiSgr(params: string, s: string)
    requires forall k | 0 <= k < |params| :: IsParamChar(params[k])
    ensures StripAnsi([Esc, '['] + params + "m" + s) == StripAnsi(s)
  {
    var t := [Esc, '['] + params + "m" + s;
    assert t[2..] == params + ("m" + s);
    ParamRunStops(params, "m" + s);
    assert t[2 + |params|] == 'm';
    assert AnsiMatchLength(t) == |params| + 3;
    assert t[|params| + 3..] == s;
  }

  lemma {:induction false} ParamRunSpaces(x: string, k: nat)
    ensures ParamRun(x + Repeat(' ', k)) == ParamRun(x)
    decreases |x|
  {
    if |x| == 0 {
      assert x + Repeat(' ', k) == Repeat(' ', k);
    } else if IsParamChar(x[0]) {
      assert (x + Repeat(' ', k))[1..] == x[1..] + Repeat(' ', k);
      ParamRunSpaces(x[1..], k);
    }
  }

  lemma MatchLengthSpaces(a: string, k: nat)
    requires |a| > 0
    ensures AnsiMatchLength(a + Repeat(' ', k)) == AnsiMatchLength(a)
  {
    var s := a + Repeat(' ', k);
    if |a| >= 2 && a[0] == Esc && a[1] == '[' {
      assert s[2..] == a[2..] + Repeat(' ', k);
      ParamRunSpaces(a[2..], k);
    }
  }

  /** Spaces appended to a text are appended to its visible text. */
  lemma {:induction false} StripAnsiSpacesRight(a: string, k: nat)
    ensures StripAnsi(a + Repeat(' ', k)) == StripAnsi(a) + Repeat(' ', k)
    decreases |a|
  {
    var b := Repeat(' ', k);
    if |a| == 0 {
      assert a + b == b;
      StripAnsiPlain(b);
    } else {
      MatchLengthSpaces(a, k);
      var n := AnsiMatchLength(a);
      if n > 0 {
        assert (a + b)[n..] == a[n..] + b;
        StripAnsiSpacesRight(a[n..], k);
      } else {
        assert (a + b)[1..] == a[1..] + b;
        StripAnsiSpacesRight(a[1..], k);
      }
    }
  }

  /** A leading space is visible. */
  lemma SpaceFirst(x: string)
    ensures StripAnsi([' '] + x) == [' '] + StripAnsi(x)
  {
    var s := [' '] + x;
    assert AnsiMatchLength(s) == 0;
    assert s[1..] == x;
  }

  lemma RepeatCons(c: char, k: nat)
    requires k > 0
    ensures Repeat(c, k) == [c] + Repeat(c, k - 1)
  {
  }

  /** Spaces prepended to a text are prepended to its visible text. */
  lemma {:induction false} StripAnsiSpacesLeft(k: nat, a: string)
    ensures StripAnsi(Repeat(' ', k) + a) == Repeat(' ', k) + StripAnsi(a)
    decreases k
  {
    if k > 0 {
      var rest := Repeat(' ', k - 1);
      RepeatCons(' ', k);
      assert Repeat(' ', k) + a == [' '] + (rest + a);
      SpaceFirst(rest + a);
      StripAnsiSpacesLeft(k - 1, a);
    } else {
      assert Repeat(' ', k) + a == a;
    }
  }

  /** center: a text narrower than `width` gets half the spare width (rounded down) as
      leading spaces; a wider one is returned unchanged. */
  function Center(text: string, width: int): (r: string)
    ensures VisualWidth(text) >= width ==> r == text
    ensures VisualWidth(text) < width ==>
      && EndsWith(r, text)
      && (forall k | 0 <= k < |r| - |text| :: r[k] == ' ')
      && VisualWidth(r) <= width
      && 0 <= (width - VisualWidth(r)) - (|r| - |text|) <= 1
  {
    var textLen := VisualWidth(text);
    if textLen >= width then text
    else
      var padding := (width - textLen) / 2;
      StripAnsiSpacesLeft(padding, text);
      Repeat(' ', padding) + text
  }

  /** padRight: spaces after the text up to `width` visible columns (null reads as ""). */
  function PadRight(text: Option<string>, width: int): (r: string)
    ensures var t := if text.Some? then text.value else "";
      && StartsWith(r, t)
      && (forall k | |t| <= k < |r| :: r[k] == ' ')
      && VisualWidth(r) == Max(width, VisualWidth(t))
  {
    var t := if text.Some? then text.value else "";
    var textLen := VisualWidth(t);
    if textLen >= width then t
    else
      StripAnsiSpacesRight(t, width - textLen);
      t + Repeat(' ', width - textLen)
  }

  /** The index of the first "m" at or after `j`, or -1 when there is none. */
  function NextM(text: string, j: nat): (r: int)
    ensures r == -1 || j <= r < |text|
    decreases |text| - j
  {
    if j >= |text| then -1
    else if text[j] == 'm' then j
    else NextM(text, j + 1)
  }

  /** NextM finds the first "m" from `j` on. */
  lemma {:induction false} NextMSpec(text: string, j: nat)
    requires j <= |text|
    ensures NextM(text, j) == -1 <==> 'm' !in text[j..]
    ensures NextM(text, j) >= 0 ==> text[NextM(text, j)] == 'm' && 'm' !in text[j..NextM(text, j)]
    decreases |text| - j
  {
    if j < |text| {
      assert text[j..] == [text[j]] + text[j + 1..];
      if text[j] != 'm' {
        NextMSpec(text, j + 1);
        var r := NextM(text, j + 1);
        if r >= 0 {
          assert text[j..r] == [text[j]] + text[j + 1..r];
        }
      }
    }
  }

  /** findAnsiSequenceEnd as a value: the index after the first "m" of an ESC "[" at
      `pos`, or `pos` when there is no such sequence. */
  function AnsiSequenceEnd(text: string, pos: nat): (r: int)
    ensures r == pos || pos + 3 <= r <= |text|
  {
    if pos + 1 >= |text| then pos
    else if text[pos] != Esc || text[pos + 1] != '[' then pos
    else
      var k := NextM(text, pos + 2);
      if k >= 0 then k + 1 else pos
  }

  /** A sequence runs from ESC "[" to the first "m" after it; there is none exactly when
      no "m" follows the ESC "[". */
  lemma AnsiSequenceEndSpec(text: string, pos: nat)
    ensures var r := AnsiSequenceEnd(text, pos);
      && (r == pos || (text[pos] == Esc && text[pos + 1] == '[' && text[r - 1] == 'm' && 'm' !in text[pos + 2..r - 1]))
      && (r == pos <==> !(pos + 1 < |text| && text[pos] == Esc && text[pos + 1] == '[' && 'm' in text[pos + 2..]))
  {
    if pos + 1 < |text| {
      NextMSpec(text, pos + 2);
    }
  }

  /** findAnsiSequenceEnd */
  method FindAnsiSequenceEnd(text: string, pos: nat) returns (end: int)
    ensures end == AnsiSequenceEnd(text, pos)
  {
    if pos + 1 >= |text| {
      return pos;
    }
    if text[pos] != Esc || text[pos + 1] != '[' {
      return pos;
    }
    end := pos + 2;
    while end < |text| && text[end] != 'm'
      invariant pos + 2 <= end <= |text|
      invariant NextM(text, end) == NextM(text, pos + 2)
    {
      end := end + 1;
    }
    if end < |text| {
      end := end + 1;
    } else {
      end := pos;
    }
  }

  /** Where truncation to `budget` visible characters stops when the scan is at `i`:
      escape sequences are skipped whole, other characters count one each, and the scan
      stops at the end of the text or once the budget is used up. */
  function KeptEnd(text: string, i: nat, budget: int): (j: nat)
    requires i <= |text|
    ensures i <= j <= |text|
    decreases |text| - i
  {
    if i == |text| || budget <= 0 then i
    else
      var e := AnsiSequenceEnd(text, i);
      if e > i then KeptEnd(text, e, budget) else KeptEnd(text, i + 1, budget - 1)
  }

  /** Whether a style is still open where truncation stops: the last escape sequence
      passed was not a reset (`open` holds the answer so far). */
  function OpenAtEnd(text: string, i: nat, budget: int, open: bool): bool
    requires i <= |text|
    decreases |text| - i
  {
    if i == |text| || budget <= 0 then open
    else
      var e := AnsiSequenceEnd(text, i);
      if e > i then OpenAtEnd(text, e, budget, text[i..e] != AnsiReset)
      else OpenAtEnd(text, i + 1, budget - 1, open)
  }

  /** The number of visible characters from `i` on, as the truncation scan counts them. */
  function VisibleFrom(text: string, i: nat): nat
    requires i <= |text|
    decreases |text| - i
  {
    if i == |text| then 0
    else
      var e := AnsiSequenceEnd(text, i);
      if e > i then VisibleFrom(text, e) else 1 + VisibleFrom(text, i + 1)
  }

  /** truncatePreservingAnsi as a value: the text up to where the scan stops, then a
      reset when a style is still open. */
  function TruncatedAnsi(text: string, targetWidth: int): string {
    text[..KeptEnd(text, 0, targetWidth)] + (if OpenAtEnd(text, 0, targetWidth, false) then AnsiReset else "")
  }

  /** Truncation keeps exactly min(budget, visible) visible characters, and keeps the
      whole text when fewer than `budget` are visible. */
  lemma {:induction false} KeptCount(text: string, i: nat, budget: int)
    requires i <= |text|
    ensures VisibleFrom(text, i) - VisibleFrom(text, KeptEnd(text, i, budget))
      == Min(Max(budget, 0), VisibleFrom(text, i))
    ensures VisibleFrom(text, i) < budget ==> KeptEnd(text, i, budget) == |text|
    decreases |text| - i
  {
    var v := VisibleFrom(text, i);
    var k := KeptEnd(text, i, budget);
    if i < |text| && budget > 0 {
      var e := AnsiSequenceEnd(text, i);
      if e > i {
        KeptCount(text, e, budget);
        assert v == VisibleFrom(text, e) && k == KeptEnd(text, e, budget);
      } else {
        KeptCount(text, i + 1, budget - 1);
        assert v == 1 + VisibleFrom(text, i + 1) && k == KeptEnd(text, i + 1, budget - 1);
      }
    } else {
      assert k == i;
    }
  }

  lemma PlainStep(text: string, i: nat)
    requires i < |text| && text[i] != Esc
    ensures AnsiSequenceEnd(text, i) == i
  {
  }

  /** Without escape characters every character is visible and nothing is left open. */
  lemma {:induction false} PlainKept(text: string, i: nat, budget: int)
    requires i <= |text| && Esc !in text
    ensures KeptEnd(text, i, budget) == i + Min(Max(budget, 0), |text| - i)
    ensures !OpenAtEnd(text, i, budget, false)
    decreases |text| - i
  {
    if i < |text| && budget > 0 {
      assert text[i] in text;
      PlainStep(text, i);
      PlainKept(text, i + 1, budget - 1);
    }
  }

  /** For unstyled text, ANSI-aware truncation is a plain prefix and adds no reset. */
  lemma PlainTruncation(text: string, targetWidth: int)
    requires Esc !in text
    ensures TruncatedAnsi(text, targetWidth) == text[..Min(Max(targetWidth, 0), |text|)]
  {
    PlainKept(text, 0, targetWidth);
  }

  /** truncatePreservingAnsi: copies escape sequences and characters until `targetWidth`
      visible characters are copied, then closes a style that is still open. */
  method TruncatePreservingAnsi(text: string, targetWidth: int) returns (r: string)
    ensures r == TruncatedAnsi(text, targetWidth)
  {
    if targetWidth <= 0 {
      return "";
    }
    var result := "";
    var visualCount := 0;
    var i := 0;
    var hasOpenAnsi := false;
    while i < |text| && visualCount < targetWidth
      invariant 0 <= i <= |text| && 0 <= visualCount <= targetWidth
      invariant result == text[..i]
      invariant KeptEnd(text, i, targetWidth - visualCount) == KeptEnd(text, 0, targetWidth)
      invariant OpenAtEnd(text, i, targetWidth - visualCount, hasOpenAnsi) == OpenAtEnd(text, 0, targetWidth, false)
      decreases |text| - i
    {
      var ansiEnd := FindAnsiSequenceEnd(text, i);
      if ansiEnd > i {
        var sq := text[i..ansiEnd];
        assert text[..ansiEnd] == text[..i] + sq;
        result := result + sq;
        hasOpenAnsi := sq != AnsiReset;
        i := ansiEnd;
      } else {
        assert text[..i + 1] == text[..i] + [text[i]];
        result := result + [text[i]];
        visualCount := visualCount + 1;
        i := i + 1;
      }
    }
    if hasOpenAnsi {
      result := result + AnsiReset;
    }
    return result;
  }

  /** truncate: text that fits is unchanged; otherwise it is cut to `width` visible
      characters, the last three given to "..." when there is room. */
  method Truncate(text: Option<string>, width: int) returns (r: string)
    ensures text.None? ==> r == ""
    ensures text.Some? && VisualWidth(text.value) <= width ==> r == text.value
    ensures text.Some? && VisualWidth(text.value) > width && width > 3 ==>
      r == TruncatedAnsi(text.value, width - 3) + Ellipsis
    ensures text.Some? && VisualWidth(text.value) > width && width <= 3 ==> r == TruncatedAnsi(text.value, width)
  {
    if text.None? {
      return "";
    }
    var t := text.value;
    var visualLen := VisualWidth(t);
    if visualLen <= width {
      return t;
    }
    if width <= 3 {
      r := TruncatePreservingAnsi(t, width);
      return;
    }
    var head := TruncatePreservingAnsi(t, width - 3);
    return head + Ellipsis;
  }

  predicate IsLineBreak(c: char) {
    c == '\n' || c == '\r'
  }

  /** The text without its trailing line breaks. */
  function NewlinesStripped(s: string): (r: string)
    ensures StartsWith(s, r)
    ensures |r| == 0 || !IsLineBreak(r[|r| - 1])
    ensures forall k | |r| <= k < |s| :: IsLineBreak(s[k])
  {
    if |s| > 0 && IsLineBreak(s[|s| - 1]) then NewlinesStripped(s[..|s| - 1]) else s
  }

  /** Stripping twice strips nothing more. */
  lemma StripIdempotent(s: string)
    ensures NewlinesStripped(NewlinesStripped(s)) == NewlinesStripped(s)
  {
  }

  /** stripTrailingNewlines (null reads as ""). */
  method StripTrailingNewlines(s: Option<string>) returns (r: string)
    ensures s.None? ==> r == ""
    ensures s.Some? ==> r == NewlinesStripped(s.value)
  {
    if s.None? || |s.value| == 0 {
      return "";
    }
    var t := s.value;
    var end := |t|;
    while end > 0 && IsLineBreak(t[end - 1])
      invariant 0 <= end <= |t|
      invariant NewlinesStripped(t[..end]) == NewlinesStripped(t)
    {
      assert t[..end][..end - 1] == t[..end - 1];
      end := end - 1;
    }
    assert t[..end] == t[..end];
    return t[..end];
  }
}
