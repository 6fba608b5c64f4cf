/** The settings palette: a list of configuration items, a toggle for on/off items and a
    one-line editor with a cursor for the others. Item values are what each item's getter
    reports; a setter call is returned as a `Write` so the caller can apply it to the
    configuration, and the items the getters report afterwards come back in as `refreshed`. */
module SettingsPalette {
  import opened Wrappers
  import opened JavaString
  import opened Keys

  const NotSet: string := "(not set)"
  const Enabled: string := "enabled"
  const Disabled: string := "disabled"

  /** A settings row; `value` is what its getter returns (None for null). */
  datatype ConfigItem = ConfigItem(
    name: string, envVar: string, value: Option<string>,
    isToggle: bool, readOnly: bool, isSensitive: bool)

  /** A call of an item's setter, or none. */
  datatype Write = NoWrite | Write(item: string, text: string)

  datatype PaletteResult = PaletteResult(handled: bool, write: Write)

  /** The text shown beside an item: its value, or "(not set)" when that is blank. */
  function Description(item: ConfigItem): (r: string)
    ensures item.value.None? || IsBlank(item.value.value) ==> r == NotSet
    ensures item.value.Some? && !IsBlank(item.value.value) ==> r == item.value.value
  {
    if item.value.None? || IsBlank(item.value.value) then NotSet else item.value.value
  }

  /** maskSensitive: a secret shows as "(not set)" when blank, as "****" when at most eight
      characters long, and otherwise as its first and last four characters around "****". */
  function MaskSensitive(value: Option<string>): (r: string)
    ensures value.None? || IsBlank(value.value) ==> r == NotSet
    ensures value.Some? && !IsBlank(value.value) && |value.value| <= 8 ==> r == "****"
    ensures value.Some? && !IsBlank(value.value) && |value.value| > 8 ==>
      |r| == 12 && r[..4] == value.value[..4] && r[4..8] == "****"
      && r[8..] == value.value[|value.value| - 4..]
  {
    if value.None? || IsBlank(value.value) then NotSet
    else if |value.value| <= 8 then "****"
    else value.value[..4] + "****" + value.value[|value.value| - 4..]
  }

  /** A masked secret gives away at most eight of its characters, and none of a short one. */
  lemma MaskRevealsAtMostEight(secret: string)
    requires !IsBlank(secret)
    ensures var m := MaskSensitive(Some(secret));
      |m| <= 12 && (|secret| <= 8 ==> forall i | 0 <= i < |m| :: m[i] == '*')
      && (|secret| > 8 ==> multiset(m) - multiset{'*', '*', '*', '*'} <= multiset(secret))
  {
    var m := MaskSensitive(Some(secret));
    if |secret| > 8 {
      var n := |secret|;
      assert m == secret[..4] + "****" + secret[n - 4..];
      assert secret == secret[..4] + secret[4..n - 4] + secret[n - 4..];
      assert multiset(secret) == multiset(secret[..4]) + multiset(secret[4..n - 4]) + multiset(secret[n - 4..]);
      assert multiset(m) == multiset(secret[..4]) + multiset("****") + multiset(secret[n - 4..]);
      assert multiset("****") == multiset{'*', '*', '*', '*'};
    }
  }

  /** nullToNotSet */
  function NullToNotSet(value: Option<string>): (r: string)
    ensures value.None? || IsBlank(value.value) ==> r == NotSet
    ensures value.Some? && !IsBlank(value.value) ==> r == value.value
  {
    if value.None? || IsBlank(value.value) then NotSet else value.value
  }

  /** What a toggle writes: "disabled" when the item reads "enabled" in any case, otherwise
      "enabled". */
  function ToggleNext(current: Option<string>): (r: string)
    ensures r == Disabled <==> current.Some? && EqualsIgnoreCase(Enabled, current.value)
    ensures r == Enabled <==> !(current.Some? && EqualsIgnoreCase(Enabled, current.value))
  {
    if current.Some? && EqualsIgnoreCase(Enabled, current.value) then Disabled else Enabled
  }

  /** The summarisation row's getter. */
  function SummaryLabel(enabled: bool): (r: string)
    ensures r == Enabled || r == Disabled
    ensures SummaryDisabledBy(r) <==> !enabled
  {
    LabelsDiffer();
    if enabled then Enabled else Disabled
  }

  /** The summarisation row's setter receives "disabled" (in any case) to switch off. */
  predicate SummaryDisabledBy(v: string) {
    EqualsIgnoreCase(Disabled, v)
  }

  lemma LabelsDiffer()
    ensures !EqualsIgnoreCase(Enabled, Disabled) && !EqualsIgnoreCase(Disabled, Enabled)
    ensures EqualsIgnoreCase(Enabled, Enabled) && EqualsIgnoreCase(Disabled, Disabled)
  {
    assert ToLower(Enabled)[0] == 'e';
    assert ToLower(Disabled)[0] == 'd';
  }

  /** Toggling the summarisation row switches summarisation the other way. */
  lemma SummaryToggleFlips(enabled: bool)
    ensures SummaryDisabledBy(ToggleNext(Some(SummaryLabel(enabled)))) == enabled
  {
    LabelsDiffer();
  }

  /** Toggling twice from either label comes back to it. */
  lemma ToggleTwice(shown: string)
    requires shown == Enabled || shown == Disabled
    ensures ToggleNext(Some(ToggleNext(Some(shown)))) == shown
  {
    LabelsDiffer();
  }

  /** The buffer an edit starts with: empty for a secret, otherwise the current value
      unless that is blank. */
  function Prefill(item: ConfigItem): (r: string)
    ensures item.isSensitive ==> r == ""
    ensures !item.isSensitive && item.value.Some? && !IsBlank(item.value.value) ==> r == item.value.value
    ensures !item.isSensitive && (item.value.None? || IsBlank(item.value.value)) ==> r == ""
  {
    if !item.isSensitive && item.value.Some? && !IsBlank(item.value.value) then item.value.value else ""
  }

  /** Keys that edit the buffer in place (all but Esc and Enter), as a function of the
      buffer and cursor. */
  function EditStep(key: Key, buffer: string, cursor: int): (r: (string, int))
    requires 0 <= cursor <= |buffer|
    ensures 0 <= r.1 <= |r.0|
    ensures key.kind in {BS, DEL} && cursor > 0 ==> r.0 == buffer[..cursor - 1] + buffer[cursor..] && r.1 == cursor - 1
    ensures key.kind == Runes && |key.runes| > 0 && key.runes[0] >= ' ' ==>
      r.0 == buffer[..cursor] + key.runes + buffer[cursor..] && r.1 == cursor + |key.runes|
    ensures key.kind == Left ==> r.0 == buffer && r.1 == (if cursor > 0 then cursor - 1 else 0)
    ensures key.kind == Right ==> r.0 == buffer && r.1 == (if cursor < |buffer| then cursor + 1 else cursor)
    ensures key.kind == Home ==> r == (buffer, 0)
    ensures key.kind == End ==> r == (buffer, |buffer|)
    ensures key.kind !in {BS, DEL, Runes} ==> r.0 == buffer
    ensures (!(key.kind in {BS, DEL} && cursor > 0) && !(key.kind == Runes && |key.runes| > 0 && key.runes[0] >= ' ')
             && key.kind !in {Left, Right, Home, End}) ==> r == (buffer, cursor)
  {
    if key.kind in {BS, DEL} then
      if cursor > 0 then (buffer[..cursor - 1] + buffer[cursor..], cursor - 1) else (buffer, cursor)
    else if key.kind == Left then (buffer, if cursor > 0 then cursor - 1 else cursor)
    else if key.kind == Right then (buffer, if cursor < |buffer| then cursor + 1 else cursor)
    else if key.kind == Home then (buffer, 0)
    else if key.kind == End then (buffer, |buffer|)
    else if key.kind == Runes && |key.runes| > 0 && key.runes[0] >= ' ' then
      (buffer[..cursor] + key.runes + buffer[cursor..], cursor + |key.runes|)
    else (buffer, cursor)
  }

  /** String.replace("\r\n", ""): every CR LF pair, scanning left to right. */
  function RemoveCrLf(s: string): (r: string)
    decreases |s|
  {
    if |s| >= 2 && s[0] == '\r' && s[1] == '\n' then RemoveCrLf(s[2..])
    else if |s| == 0 then ""
    else [s[0]] + RemoveCrLf(s[1..])
  }

  /** String.replace(c, "") for a one-character target. */
  function RemoveChar(s: string, c: char): (r: string)
    ensures c !in r
  {
    if |s| == 0 then ""
    else (if s[0] == c then "" else [s[0]]) + RemoveChar(s[1..], c)
  }

  /** The pasted text with line breaks removed, as handlePaste cleans it. */
  function Cleaned(content: string): (r: string)
    ensures '\n' !in r && '\r' !in r
  {
    var noCrLf := RemoveCrLf(content);
    var noLf := RemoveChar(noCrLf, '\n');
    RemoveCharKeeps(noLf, '\r', '\n');
    RemoveChar(noLf, '\r')
  }

  lemma {:induction false} RemoveCharKeeps(s: string, c: char, d: char)
    requires d !in s
    ensures d !in RemoveChar(s, c)
  {
    if |s| > 0 {
      RemoveCharKeeps(s[1..], c, d);
    }
  }

  lemma {:induction false} PrintableRemoveChar(s: string, c: char)
    requires c < ' '
    ensures Printable(RemoveChar(s, c)) == Printable(s)
  {
    if |s| > 0 {
      PrintableRemoveChar(s[1..], c);
      PrintableConcat(if s[0] == c then "" else [s[0]], RemoveChar(s[1..], c));
    }
  }

  lemma {:induction false} PrintableRemoveCrLf(s: string)
    ensures Printable(RemoveCrLf(s)) == Printable(s)
    decreases |s|
  {
    if |s| >= 2 && s[0] == '\r' && s[1] == '\n' {
      PrintableRemoveCrLf(s[2..]);
      assert Printable(s) == Printable(s[1..]);
      assert s[1..][1..] == s[2..];
    } else if |s| > 0 {
      PrintableRemoveCrLf(s[1..]);
      PrintableConcat([s[0]], RemoveCrLf(s[1..]));
    }
  }

  /** Inserting at the end of the left part of a three-part buffer extends that part. */
  lemma InsertAt(before: string, done: string, after: string, c: char)
    ensures var buf := before + done + after;
      buf[..|before| + |done|] + [c] + buf[|before| + |done|..] == before + (done + [c]) + after
  {
    var buf := before + done + after;
    assert buf[..|before| + |done|] == before + done;
    assert buf[|before| + |done|..] == after;
  }

  /** Removing line breaks first changes nothing that the printable filter keeps: a paste
      inserts exactly the printable characters of what was pasted. */
  lemma PasteInsertsPrintable(content: string)
    ensures Printable(Cleaned(content)) == Printable(content)
  {
    var noCrLf := RemoveCrLf(content);
    PrintableRemoveCrLf(content);
    PrintableRemoveChar(noCrLf, '\n');
    PrintableRemoveChar(RemoveChar(noCrLf, '\n'), '\r');
  }

  class ConfigPalette {
    var open: bool
    var selectedIndex: int
    var items: seq<ConfigItem>
    var editing: bool
    var editingItem: Option<ConfigItem>
    var editBuffer: string
    var cursorPos: int

    /** The cursor always lies within the edit buffer. */
    predicate Valid()
      reads this
    {
      0 <= cursorPos <= |editBuffer|
    }

    constructor ()
      ensures Valid() && !open && !editing && selectedIndex == 0 && items == [] && editBuffer == ""
    {
      open := false;
      selectedIndex := 0;
      items := [];
      editing := false;
      editingItem := None;
      editBuffer := "";
      cursorPos := 0;
    }

    /** open: shows the items as read from the configuration, first row selected. */
    method Open(built: seq<ConfigItem>)
      requires Valid()
      modifies this
      ensures Valid() && open && !editing && editingItem.None? && selectedIndex == 0 && items == built
      ensures editBuffer == old(editBuffer) && cursorPos == old(cursorPos)
    {
      items := built;
      selectedIndex := 0;
      open := true;
      editing := false;
      editingItem := None;
    }

    method Close()
      requires Valid()
      modifies this
      ensures Valid() && !open && !editing && editingItem.None? && selectedIndex == 0
      ensures items == old(items) && editBuffer == old(editBuffer) && cursorPos == old(cursorPos)
    {
      open := false;
      selectedIndex := 0;
      editing := false;
      editingItem := None;
    }

    method StartEditing(item: ConfigItem)
      modifies this
      ensures Valid() && editing && editingItem == Some(item)
      ensures editBuffer == Prefill(item) && cursorPos == |Prefill(item)|
      ensures open == old(open) && selectedIndex == old(selectedIndex) && items == old(items)
    {
      editing := true;
      editingItem := Some(item);
      editBuffer := "";
      if !item.isSensitive {
        var current := item.value;
        if current.Some? && !IsBlank(current.value) {
          editBuffer := editBuffer + current.value;
        }
      }
      cursorPos := |editBuffer|;
    }

    method CancelEditing()
      modifies this
      ensures Valid() && !editing && editingItem.None? && editBuffer == "" && cursorPos == 0
      ensures open == old(open) && selectedIndex == old(selectedIndex) && items == old(items)
    {
      editing := false;
      editingItem := None;
      editBuffer := "";
      cursorPos := 0;
    }

    /** saveEditing: hands the trimmed buffer to the item's setter and leaves edit mode. */
    method SaveEditing(refreshed: seq<ConfigItem>) returns (w: Write)
      modifies this
      ensures Valid() && !editing && editingItem.None? && editBuffer == "" && cursorPos == 0
      ensures old(editingItem).Some? ==>
        w == Write(old(editingItem).value.name, Trim(old(editBuffer))) && items == refreshed
      ensures old(editingItem).None? ==> w == NoWrite && items == old(items)
      ensures open == old(open) && selectedIndex == old(selectedIndex)
    {
      w := NoWrite;
      if editingItem.Some? {
        w := Write(editingItem.value.name, Trim(editBuffer));
        items := refreshed;
      }
      CancelEditing();
    }

    /** Inserts `chars` at the cursor one by one, advancing the cursor past each. */
    method InsertAtCursor(chars: string)
      requires Valid()
      modifies this
      ensures Valid()
      ensures editBuffer == old(editBuffer)[..old(cursorPos)] + chars + old(editBuffer)[old(cursorPos)..]
      ensures cursorPos == old(cursorPos) + |chars|
      ensures open == old(open) && editing == old(editing) && editingItem == old(editingItem)
      ensures selectedIndex == old(selectedIndex) && items == old(items)
    {
      var i := 0;
      while i < |chars|
        invariant 0 <= i <= |chars|
        invariant editBuffer == old(editBuffer)[..old(cursorPos)] + chars[..i] + old(editBuffer)[old(cursorPos)..]
        invariant cursorPos == old(cursorPos) + i
        invariant open == old(open) && editing == old(editing) && editingItem == old(editingItem)
        invariant selectedIndex == old(selectedIndex) && items == old(items)
      {
        assert chars[..i + 1] == chars[..i] + [chars[i]];
        editBuffer := editBuffer[..cursorPos] + [chars[i]] + editBuffer[cursorPos..];
        cursorPos := cursorPos + 1;
        i := i + 1;
      }
      assert chars[..i] == chars;
    }

    /** handleEditingKey */
    method HandleEditingKey(key: Key, refreshed: seq<ConfigItem>) returns (r: PaletteResult)
      requires Valid()
      modifies this
      ensures Valid() && r.handled
      ensures open == old(open) && selectedIndex == old(selectedIndex)
      ensures key.kind == Escape ==>
        r.write == NoWrite && !editing && editBuffer == "" && cursorPos == 0 && items == old(items)
      ensures key.kind == EnterKey ==>
        !editing && editBuffer == "" && cursorPos == 0
        && r.write == (if old(editingItem).Some? then Write(old(editingItem).value.name, Trim(old(editBuffer))) else NoWrite)
        && items == (if old(editingItem).Some? then refreshed else old(items))
      ensures key.kind !in {Escape, EnterKey} ==>
        r.write == NoWrite && items == old(items) && editing == old(editing) && editingItem == old(editingItem)
        && (editBuffer, cursorPos) == EditStep(key, old(editBuffer), old(cursorPos))
    {
      if key.kind == Escape {
        CancelEditing();
        return PaletteResult(true, NoWrite);
      }
      if key.kind == EnterKey {
        var w := SaveEditing(refreshed);
        return PaletteResult(true, w);
      }
      ghost var step := EditStep(key, editBuffer, cursorPos);
      if key.kind == BS || key.kind == DEL {
        if cursorPos > 0 {
          editBuffer := editBuffer[..cursorPos - 1] + editBuffer[cursorPos..];
          cursorPos := cursorPos - 1;
        }
        assert (editBuffer, cursorPos) == step;
        return PaletteResult(true, NoWrite);
      }
      if key.kind == Left {
        if cursorPos > 0 { cursorPos := cursorPos - 1; }
        assert (editBuffer, cursorPos) == step;
        return PaletteResult(true, NoWrite);
      }
      if key.kind == Right {
        if cursorPos < |editBuffer| { cursorPos := cursorPos + 1; }
        assert (editBuffer, cursorPos) == step;
        return PaletteResult(true, NoWrite);
      }
      if key.kind == Home {
        cursorPos := 0;
        assert (editBuffer, cursorPos) == step;
        return PaletteResult(true, NoWrite);
      }
      if key.kind == End {
        cursorPos := |editBuffer|;
        assert (editBuffer, cursorPos) == step;
        return PaletteResult(true, NoWrite);
      }
      if key.kind == Runes {
        if |key.runes| > 0 && key.runes[0] >= ' ' {
          InsertAtCursor(key.runes);
        }
        assert (editBuffer, cursorPos) == step;
        return PaletteResult(true, NoWrite);
      }
      assert (editBuffer, cursorPos) == step;
      return PaletteResult(true, NoWrite);
    }

    /** The insertion loop of handlePaste: each printable character goes in at the cursor. */
    method InsertPrintable(cleaned: string)
      requires Valid()
      modifies this`editBuffer, this`cursorPos
      ensures Valid()
      ensures editBuffer == old(editBuffer)[..old(cursorPos)] + Printable(cleaned) + old(editBuffer)[old(cursorPos)..]
      ensures cursorPos == old(cursorPos) + |Printable(cleaned)|
    {
      ghost var before := editBuffer[..cursorPos];
      ghost var after := editBuffer[cursorPos..];
      var i := 0;
      while i < |cleaned|
        invariant 0 <= i <= |cleaned|
        invariant editBuffer == before + Printable(cleaned[..i]) + after
        invariant cursorPos == |before| + |Printable(cleaned[..i])|
      {
        var c := cleaned[i];
        ghost var done := Printable(cleaned[..i]);
        PrintableStep(cleaned, i);
        if c >= ' ' {
          InsertAt(before, done, after, c);
          editBuffer := editBuffer[..cursorPos] + [c] + editBuffer[cursorPos..];
          cursorPos := cursorPos + 1;
          assert Printable(cleaned[..i + 1]) == done + [c];
        } else {
          assert Printable(cleaned[..i + 1]) == done;
        }
        i := i + 1;
      }
      assert cleaned[..i] == cleaned;
    }

    /** handlePaste: while editing, inserts the printable characters of the pasted text at
        the cursor; reports false when not editing or given nothing. */
    method HandlePaste(content: Option<string>) returns (handled: bool)
      requires Valid()
      modifies this
      ensures Valid()
      ensures handled <==> old(editing) && content.Some?
      ensures !handled ==> editBuffer == old(editBuffer) && cursorPos == old(cursorPos)
      ensures handled ==>
        var inserted := Printable(content.value);
        && editBuffer == old(editBuffer)[..old(cursorPos)] + inserted + old(editBuffer)[old(cursorPos)..]
        && cursorPos == old(cursorPos) + |inserted|
      ensures open == old(open) && editing == old(editing) && editingItem == old(editingItem)
      ensures selectedIndex == old(selectedIndex) && items == old(items)
    {
      if !editing || content.None? {
        return false;
      }
      var cleaned := Cleaned(content.value);
      PasteInsertsPrintable(content.value);
      InsertPrintable(cleaned);
      return true;
    }

    /** update for one key press. `refreshed` is what the getters report after a setter
        call this key makes. */
    method Update(key: Key, refreshed: seq<ConfigItem>) returns (r: PaletteResult)
      requires Valid()
      modifies this
      ensures Valid()
      ensures !old(open) ==>
        r == PaletteResult(false, NoWrite) && !open && items == old(items) && editing == old(editing)
        && editBuffer == old(editBuffer) && cursorPos == old(cursorPos) && selectedIndex == old(selectedIndex)
      ensures old(open) && old(editing) ==> r.handled && open && selectedIndex == old(selectedIndex)
      ensures old(open) && old(editing) && key.kind == Escape ==>
        r.write == NoWrite && !editing && editBuffer == "" && cursorPos == 0 && items == old(items)
      ensures old(open) && old(editing) && key.kind == EnterKey ==>
        !editing && editBuffer == "" && cursorPos == 0
        && r.write == (if old(editingItem).Some? then Write(old(editingItem).value.name, Trim(old(editBuffer))) else NoWrite)
        && items == (if old(editingItem).Some? then refreshed else old(items))
      ensures old(open) && old(editing) && key.kind !in {Escape, EnterKey} ==>
        r.write == NoWrite && items == old(items) && editing && editingItem == old(editingItem)
        && (editBuffer, cursorPos) == EditStep(key, old(editBuffer), old(cursorPos))
      ensures old(open) && !old(editing) && key.kind == Escape ==>
        r == PaletteResult(true, NoWrite) && !open && !editing && selectedIndex == 0 && items == old(items)
      ensures old(open) && !old(editing) && key.kind != Escape ==>
        var n := |old(items)|;
        var item := if 0 <= old(selectedIndex) < n then Some(old(items)[old(selectedIndex)]) else None;
        && open && r.handled
        && if key.kind in {Up, Down, PageUp, PageDown} && n > 0 then
             r.write == NoWrite && items == old(items) && !editing
             && selectedIndex == Moved(key.kind, old(selectedIndex), n)
           else if key.kind == Space && item.Some? && item.value.isToggle && !item.value.readOnly then
             r.write == Write(item.value.name, ToggleNext(item.value.value))
             && items == refreshed && !editing && selectedIndex == old(selectedIndex)
           else if key.kind == EnterKey && item.Some? && !item.value.readOnly && !item.value.isToggle then
             r.write == NoWrite && items == old(items) && selectedIndex == old(selectedIndex)
             && editing && editingItem == item && editBuffer == Prefill(item.value)
             && cursorPos == |Prefill(item.value)|
           else
             r.write == NoWrite && items == old(items) && !editing && selectedIndex == old(selectedIndex)
    {
      if !open {
        return PaletteResult(false, NoWrite);
      }
      if editing {
        r := HandleEditingKey(key, refreshed);
        return;
      }
      if key.kind == Escape {
        Close();
        return PaletteResult(true, NoWrite);
      }
      var total := |items|;
      if key.kind in {Up, Down, PageUp, PageDown} && total > 0 {
        if key.kind == Up {
          selectedIndex := Max(0, selectedIndex - 1);
        } else if key.kind == Down {
          selectedIndex := Min(total - 1, selectedIndex + 1);
        } else if key.kind == PageUp {
          selectedIndex := Max(0, selectedIndex - 5);
        } else {
          selectedIndex := Min(total - 1, selectedIndex + 5);
        }
        return PaletteResult(true, NoWrite);
      }
      var item := if 0 <= selectedIndex < total then Some(items[selectedIndex]) else None;
      if key.kind == Space && item.Some? && item.value.isToggle && !item.value.readOnly {
        var next := ToggleNext(item.value.value);
        items := refreshed;
        return PaletteResult(true, Write(item.value.name, next));
      }
      if key.kind == EnterKey && item.Some? && !item.value.readOnly && !item.value.isToggle {
        StartEditing(item.value);
        return PaletteResult(true, NoWrite);
      }
      return PaletteResult(true, NoWrite);
    }

    /** click on the row at `index`: ignored while editing; toggles an on/off row and starts
        editing an editable one. */
    method Click(index: int, refreshed: seq<ConfigItem>) returns (r: PaletteResult)
      requires Valid()
      modifies this
      ensures Valid()
      ensures !old(open) ==>
        r == PaletteResult(false, NoWrite) && !open && items == old(items)
        && selectedIndex == old(selectedIndex) && editing == old(editing)
      ensures old(open) && old(editing) ==>
        r == PaletteResult(true, NoWrite) && open && editing && items == old(items)
        && selectedIndex == old(selectedIndex) && editBuffer == old(editBuffer) && cursorPos == old(cursorPos)
      ensures old(open) && !old(editing) && |old(items)| == 0 ==>
        r == PaletteResult(true, NoWrite) && !open && selectedIndex == 0
      ensures old(open) && !old(editing) && |old(items)| > 0 ==>
        var item := old(items)[Clamp(index, |old(items)|)];
        && r.handled && open && selectedIndex == Clamp(index, |old(items)|)
        && if item.isToggle && !item.readOnly then
             r.write == Write(item.name, ToggleNext(item.value)) && items == refreshed && !editing
           else if !item.readOnly && !item.isToggle then
             r.write == NoWrite && items == old(items) && editing && editingItem == Some(item)
             && editBuffer == Prefill(item)
           else
             r.write == NoWrite && items == old(items) && !editing
    {
      if !open {
        return PaletteResult(false, NoWrite);
      }
      if editing {
        return PaletteResult(true, NoWrite);
      }
      if |items| == 0 {
        Close();
        return PaletteResult(true, NoWrite);
      }
      var clamped := Max(0, Min(index, |items| - 1));
      selectedIndex := clamped;
      var item := items[clamped];
      if item.isToggle && !item.readOnly {
        var next := ToggleNext(item.value);
        items := refreshed;
        return PaletteResult(true, Write(item.name, next));
      }
      if !item.readOnly && !item.isToggle {
        StartEditing(item);
        return PaletteResult(true, NoWrite);
      }
      return PaletteResult(true, NoWrite);
    }
  }
}
