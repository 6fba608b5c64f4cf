/** The place picker overlay. In input mode it collects a search query; otherwise it lists
    results, lets the user move through them, pick one, or open its detail view. */
module PlacesView {
  import opened Wrappers
  import opened JavaString
  import opened Keys
  import opened Places

  /** What a key press did: handled at all, a place picked for the conversation, whether
      the overlay reports itself closed, and a query submitted from input mode. */
  datatype UpdateResult = UpdateResult(
    wasHandled: bool, selectedForContext: Option<PlaceResult>, wasClosed: bool, searchQuery: Option<string>)

  const NotHandled := UpdateResult(false, None, false, None)
  const Handled := UpdateResult(true, None, false, None)
  const Closed := UpdateResult(true, None, true, None)
  function Selected(place: PlaceResult): UpdateResult { UpdateResult(true, Some(place), true, None) }
  function Search(query: string): UpdateResult { UpdateResult(true, None, false, Some(query)) }

  predicate ListKey(kind: KeyType) {
    kind in {Up, Down, PageUp, PageDown, Home, End}
  }

  /** The list's own navigation: arrows step by one, pages by five, Home and End jump to
      the ends; an empty list keeps the selection where it is (except PgUp and Home). */
  function ListMove(kind: KeyType, index: int, count: int): (r: int)
    requires ListKey(kind)
    ensures 0 <= index && (index == 0 || index < count) ==> 0 <= r && (r == 0 || r < count)
    ensures count > 0 && kind == End ==> r == count - 1
    ensures kind == Home ==> r == 0
  {
    match kind
    case Up => if index > 0 then index - 1 else index
    case Down => if index < count - 1 then index + 1 else index
    case PageUp => Max(0, index - 5)
    case PageDown => if count > 0 then Min(count - 1, index + 5) else index
    case Home => 0
    case End => if count > 0 then count - 1 else index
  }

  /** On a non-empty list the overlay moves its selection exactly as the palettes do. */
  lemma ListMoveAgreesWithPalettes(kind: KeyType, index: int, count: int)
    requires kind in {Up, Down, PageUp, PageDown}
    requires 0 <= index < count
    ensures ListMove(kind, index, count) == Moved(kind, index, count)
  {
  }

  class PlacesOverlay {
    var open: bool
    var inputMode: bool
    var inputBuffer: string
    var places: seq<PlaceResult>
    var query: string
    var selectedIndex: int
    var detailPlace: Option<PlaceResult>

    /** The selection names a listed place, or is 0. */
    predicate Valid()
      reads this
    {
      0 <= selectedIndex && (selectedIndex == 0 || selectedIndex < |places|)
    }

    constructor ()
      ensures Valid() && !open && !inputMode && inputBuffer == "" && places == [] && query == ""
      ensures selectedIndex == 0 && detailPlace.None?
    {
      open := false;
      inputMode := false;
      inputBuffer := "";
      places := [];
      query := "";
      selectedIndex := 0;
      detailPlace := None;
    }

    /** openForInput: an empty search box over an empty list. */
    method OpenForInput()
      modifies this
      ensures Valid() && open && inputMode && inputBuffer == "" && places == [] && query == ""
      ensures selectedIndex == 0 && detailPlace.None?
    {
      query := "";
      places := [];
      selectedIndex := 0;
      detailPlace := None;
      inputMode := true;
      inputBuffer := "";
      open := true;
    }

    /** open: the results of `query` (null query and results read as empty). */
    method Open(q: Option<string>, results: Option<seq<PlaceResult>>)
      modifies this
      ensures Valid() && open && !inputMode && inputBuffer == "" && selectedIndex == 0 && detailPlace.None?
      ensures query == (if q.Some? then q.value else "")
      ensures places == (if results.Some? then results.value else [])
    {
      query := if q.Some? then q.value else "";
      places := if results.Some? then results.value else [];
      selectedIndex := 0;
      detailPlace := None;
      inputMode := false;
      inputBuffer := "";
      open := true;
    }

    /** close keeps the results and the selection. */
    method Close()
      modifies this
      ensures !open && detailPlace.None? && !inputMode && inputBuffer == ""
      ensures places == old(places) && query == old(query) && selectedIndex == old(selectedIndex)
    {
      open := false;
      detailPlace := None;
      inputMode := false;
      inputBuffer := "";
    }

    /** selectedPlace: the place under the selection, or None when there is none. */
    function SelectedPlace(): (r: Option<PlaceResult>)
      reads this
      ensures r.None? <==> |places| == 0 || selectedIndex < 0 || selectedIndex >= |places|
      ensures r.Some? ==> r.value == places[selectedIndex]
      ensures Valid() ==> (r.None? <==> |places| == 0)
    {
      if |places| == 0 || selectedIndex < 0 || selectedIndex >= |places| then None
      else Some(places[selectedIndex])
    }

    /** Appends the printable characters of a rune press, one at a time. */
    method AppendPrintable(runes: string)
      modifies this`inputBuffer
      ensures inputBuffer == old(inputBuffer) + Printable(runes)
    {
      ghost var start := inputBuffer;
      var i := 0;
      while i < |runes|
        invariant 0 <= i <= |runes|
        invariant inputBuffer == start + Printable(runes[..i])
      {
        PrintableStep(runes, i);
        if runes[i] >= ' ' {
          inputBuffer := inputBuffer + [runes[i]];
        }
        i := i + 1;
      }
      assert runes[..i] == runes;
    }

    /** What one key press in input mode does: Escape closes; Enter searches for the trimmed
        text unless it is empty; Backspace drops the last character; runes append their
        printable characters; Space appends a space; any other key changes nothing. */
    twostate predicate InputKeyEffect(key: Key, r: UpdateResult)
      reads this
    {
      && places == old(places) && query == old(query) && selectedIndex == old(selectedIndex)
      && (key.kind == Escape ==>
            r == Closed && !open && !inputMode && inputBuffer == "" && detailPlace.None?)
      && (key.kind != Escape ==>
            open == old(open) && inputMode == old(inputMode) && detailPlace == old(detailPlace))
      && (key.kind == EnterKey ==>
            inputBuffer == old(inputBuffer)
            && r == (if Trim(old(inputBuffer)) != "" then Search(Trim(old(inputBuffer))) else Handled))
      && (key.kind == BackspaceKey ==>
            r == Handled
            && inputBuffer == (if old(inputBuffer) == "" then "" else old(inputBuffer)[..|old(inputBuffer)| - 1]))
      && (key.kind == Runes ==> r == Handled && inputBuffer == old(inputBuffer) + Printable(key.runes))
      && (key.kind == Space ==> r == Handled && inputBuffer == old(inputBuffer) + " ")
      && (key.kind !in {Escape, EnterKey, BackspaceKey, Runes, Space} ==>
            r == Handled && inputBuffer == old(inputBuffer))
    }

    /** handleInputMode */
    method HandleInputMode(key: Key) returns (r: UpdateResult)
      modifies this
      ensures InputKeyEffect(key, r)
      ensures places == old(places) && query == old(query) && selectedIndex == old(selectedIndex)
      ensures key.kind == Escape ==>
        r == Closed && !open && !inputMode && inputBuffer == "" && detailPlace.None?
      ensures key.kind != Escape ==>
        open == old(open) && inputMode == old(inputMode) && detailPlace == old(detailPlace)
      ensures key.kind == EnterKey ==>
        inputBuffer == old(inputBuffer)
        && r == (if Trim(old(inputBuffer)) != "" then Search(Trim(old(inputBuffer))) else Handled)
      ensures key.kind == BackspaceKey ==>
        r == Handled
        && inputBuffer == (if old(inputBuffer) == "" then "" else old(inputBuffer)[..|old(inputBuffer)| - 1])
      ensures key.kind == Runes ==> r == Handled && inputBuffer == old(inputBuffer) + Printable(key.runes)
      ensures key.kind == Space ==> r == Handled && inputBuffer == old(inputBuffer) + " "
      ensures key.kind !in {Escape, EnterKey, BackspaceKey, Runes, Space} ==>
        r == Handled && inputBuffer == old(inputBuffer)
    {
      if key.kind == Escape {
        Close();
        return Closed;
      }
      if key.kind == EnterKey {
        var searchText := Trim(inputBuffer);
        if searchText != "" {
          return Search(searchText);
        }
        return Handled;
      }
      if key.kind == BackspaceKey {
        if inputBuffer != "" {
          inputBuffer := inputBuffer[..|inputBuffer| - 1];
        }
        return Handled;
      }
      if key.kind == Runes {
        AppendPrintable(key.runes);
        return Handled;
      }
      if key.kind == Space {
        inputBuffer := inputBuffer + " ";
        return Handled;
      }
      return Handled;
    }

    /** update for one key press. */
    method Update(key: Key) returns (r: UpdateResult)
      requires Valid()
      modifies this
      ensures Valid() && places == old(places) && query == old(query)
      ensures !old(open) ==>
        r == NotHandled && !open && inputMode == old(inputMode) && inputBuffer == old(inputBuffer)
        && selectedIndex == old(selectedIndex) && detailPlace == old(detailPlace)
      ensures old(open) && old(inputMode) ==> r.wasHandled && InputKeyEffect(key, r)
      ensures old(open) && !old(inputMode) && old(detailPlace).Some? ==>
        r == Handled && open && !inputMode && selectedIndex == old(selectedIndex)
        && detailPlace == (if key.kind in {Escape, BackspaceKey} then None else old(detailPlace))
      ensures old(open) && !old(inputMode) && old(detailPlace).None? ==>
        if key.kind == Escape then
          r == Closed && !open && detailPlace.None? && selectedIndex == old(selectedIndex)
        else if ListKey(key.kind) then
          r == Handled && open && detailPlace.None?
          && selectedIndex == ListMove(key.kind, old(selectedIndex), |old(places)|)
        else if key.kind == EnterKey then
          open && detailPlace.None? && selectedIndex == old(selectedIndex)
          && r == (if old(SelectedPlace()).Some? then Selected(old(SelectedPlace()).value) else Handled)
        else if key.kind == TabKey then
          r == Handled && open && selectedIndex == old(selectedIndex) && detailPlace == old(SelectedPlace())
        else
          r == Handled && open && detailPlace.None? && selectedIndex == old(selectedIndex)
    {
      if !open {
        return NotHandled;
      }
      if inputMode {
        r := HandleInputMode(key);
        return;
      }
      if detailPlace.Some? {
        if key.kind == Escape || key.kind == BackspaceKey {
          detailPlace := None;
          return Handled;
        }
        return Handled;
      }
      if key.kind == Escape {
        Close();
        return Closed;
      }
      if ListKey(key.kind) {
        selectedIndex := ListMove(key.kind, selectedIndex, |places|);
        return Handled;
      }
      if key.kind == EnterKey {
        var selected := SelectedPlace();
        if selected.Some? {
          return Selected(selected.value);
        }
        return Handled;
      }
      if key.kind == TabKey {
        var selected := SelectedPlace();
        if selected.Some? {
          detailPlace := selected;
        }
        return Handled;
      }
      return Handled;
    }
  }
}
