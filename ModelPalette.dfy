/** The model picker: a palette over the available model ids with a type-to-filter line. */
module ModelPicker {
  import opened Wrappers
  import opened JavaString
  import opened Keys

  /** Whether the key was handled, and the model id picked by it. */
  datatype PaletteResult = PaletteResult(handled: bool, selectedModel: Option<string>)

  /** A model id passes the filter when it contains the filter, ignoring ASCII case. */
  predicate PassesFilter(id: string, filter: string) {
    Contains(ToLower(id), ToLower(filter))
  }

  /** The ids passing the filter, in their original order. */
  function Keep(choices: seq<string>, filter: string): (r: seq<string>)
    ensures |r| <= |choices|
    ensures forall i | 0 <= i < |r| :: r[i] in choices && PassesFilter(r[i], filter)
    ensures forall c | c in choices && PassesFilter(c, filter) :: c in r
  {
    if |choices| == 0 then []
    else (if PassesFilter(choices[0], filter) then [choices[0]] else []) + Keep(choices[1..], filter)
  }

  /** filtered(): every choice while the filter is empty, otherwise those passing it. */
  function Filtered(choices: seq<string>, filter: string): seq<string> {
    if filter == "" then choices else Keep(choices, filter)
  }

  lemma EmptyOccursAt(s: string)
    ensures OccursAt(s, "", 0)
  {
    assert s[0..0] == "";
  }

  /** The empty-filter shortcut lists what filtering by "" would: every id contains "". */
  lemma {:induction false} EmptyFilterKeepsAll(choices: seq<string>)
    ensures Keep(choices, "") == choices
  {
    if |choices| > 0 {
      EmptyOccursAt(ToLower(choices[0]));
      assert ToLower("") == "";
      assert PassesFilter(choices[0], "");
      EmptyFilterKeepsAll(choices[1..]);
      assert choices == [choices[0]] + choices[1..];
    }
  }

  lemma LowerConcat(a: string, b: string)
    ensures ToLower(a + b) == ToLower(a) + ToLower(b)
  {
  }

  lemma ContainsPrefix(s: string, p: string, q: string)
    requires Contains(s, p + q)
    ensures Contains(s, p)
  {
    var i :| 0 <= i <= |s| - |p + q| && OccursAt(s, p + q, i);
    assert s[i..i + |p|] == (p + q)[..|p|] == p;
    assert OccursAt(s, p, i);
  }

  lemma KeptPasses(choices: seq<string>, filter: string, c: string)
    requires c in Keep(choices, filter)
    ensures c in choices && PassesFilter(c, filter)
  {
    var r := Keep(choices, filter);
    var k :| 0 <= k < |r| && r[k] == c;
  }

  /** Typing more of the filter never lets a new id in; erasing never drops one. */
  lemma TypingNarrows(choices: seq<string>, filter: string, typed: string, c: string)
    requires c in Filtered(choices, filter + typed)
    ensures c in Filtered(choices, filter)
  {
    if filter + typed != "" {
      KeptPasses(choices, filter + typed, c);
      if filter != "" {
        LowerConcat(filter, typed);
        ContainsPrefix(ToLower(c), ToLower(filter), ToLower(typed));
      }
    }
  }

  /** The filter narrows when a rune press starts with a printable character. */
  predicate TypesFilter(key: Key) {
    key.kind == Runes && |key.runes| > 0 && key.runes[0] >= ' '
  }

  class ModelPalette {
    var open: bool
    var selectedIndex: int
    var allChoices: seq<string>
    var filter: string

    function Matches(): seq<string>
      reads this
    {
      Filtered(allChoices, filter)
    }

    /** The selection always names a listed model (or is 0 when none is), and a closed
        palette has neither selection nor filter. */
    predicate Valid()
      reads this
    {
      && 0 <= selectedIndex
      && (selectedIndex == 0 || selectedIndex < |Matches()|)
      && (!open ==> selectedIndex == 0 && filter == "")
    }

    constructor ()
      ensures Valid() && !open && allChoices == [] && filter == ""
    {
      open := false;
      selectedIndex := 0;
      allChoices := [];
      filter := "";
    }

    method Open(modelIds: seq<string>)
      modifies this
      ensures Valid() && open && allChoices == modelIds && filter == "" && selectedIndex == 0
      ensures Matches() == modelIds
    {
      allChoices := modelIds;
      selectedIndex := 0;
      filter := "";
      open := true;
    }

    method Close()
      modifies this
      ensures !open && selectedIndex == 0 && filter == "" && allChoices == old(allChoices)
    {
      open := false;
      selectedIndex := 0;
      filter := "";
    }

    method Update(key: Key) returns (r: PaletteResult)
      requires Valid()
      modifies this
      ensures Valid() && allChoices == old(allChoices)
      ensures !old(open) ==>
        r == PaletteResult(false, None) && !open && filter == old(filter)
        && selectedIndex == old(selectedIndex)
      ensures old(open) && key.kind == Escape ==>
        r == PaletteResult(true, None) && !open && filter == "" && selectedIndex == 0
      ensures old(open) && key.kind != Escape ==>
        var n := |Filtered(old(allChoices), old(filter))|;
        if key.kind in {Up, Down, PageUp, PageDown} && n > 0 then
          r == PaletteResult(true, None) && open && filter == old(filter)
          && selectedIndex == Moved(key.kind, old(selectedIndex), n)
        else if key.kind == EnterKey && n > 0 then
          r == PaletteResult(true, Some(Filtered(old(allChoices), old(filter))[old(selectedIndex)]))
          && !open && filter == "" && selectedIndex == 0
        else if key.kind in {BS, DEL} && old(filter) != "" then
          r == PaletteResult(true, None) && open && selectedIndex == 0
          && filter == old(filter)[..|old(filter)| - 1]
        else if TypesFilter(key) then
          r == PaletteResult(true, None) && open && selectedIndex == 0
          && filter == old(filter) + key.runes
        else
          r == PaletteResult(true, None) && open && filter == old(filter)
          && selectedIndex == old(selectedIndex)
    {
      if !open {
        return PaletteResult(false, None);
      }
      if key.kind == Escape {
        Close();
        return PaletteResult(true, None);
      }
      var matches := Matches();
      var total := |matches|;
      if key.kind in {Up, Down, PageUp, PageDown} && total > 0 {
        if key.kind == Up {
          selectedIndex := Max(0, selectedIndex - 1);
        } else if key.kind == Down {
          selectedIndex := Min(total - 1, selectedIndex + 1);
        } else if key.kind == PageUp {
          selectedIndex := Max(0, selectedIndex - 5);
        } else {
          selectedIndex := Min(total - 1, selectedIndex + 5);
        }
        return PaletteResult(true, None);
      }
      if key.kind == EnterKey && total > 0 {
        var selected := matches[selectedIndex];
        Close();
        return PaletteResult(true, Some(selected));
      }
      if (key.kind == BS || key.kind == DEL) && filter != "" {
        filter := filter[..|filter| - 1];
        selectedIndex := 0;
        return PaletteResult(true, None);
      }
      if key.kind == Runes {
        if |key.runes| > 0 && key.runes[0] >= ' ' {
          filter := filter + key.runes;
          selectedIndex := 0;
          return PaletteResult(true, None);
        }
      }
      return PaletteResult(true, None);
    }

    method Click(index: int) returns (r: PaletteResult)
      requires Valid()
      modifies this
      ensures Valid() && allChoices == old(allChoices)
      ensures !old(open) ==>
        r == PaletteResult(false, None) && !open && filter == old(filter)
        && selectedIndex == old(selectedIndex)
      ensures old(open) ==>
        var matches := Filtered(old(allChoices), old(filter));
        && !open && filter == "" && selectedIndex == 0
        && r == PaletteResult(true, if |matches| == 0 then None else Some(matches[Clamp(index, |matches|)]))
    {
      if !open {
        return PaletteResult(false, None);
      }
      var matches := Matches();
      if |matches| == 0 {
        Close();
        return PaletteResult(true, None);
      }
      var clamped := Max(0, Min(index, |matches| - 1));
      var selected := matches[clamped];
      Close();
      return PaletteResult(true, Some(selected));
    }
  }
}
