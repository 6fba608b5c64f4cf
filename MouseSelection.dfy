/** Mouse selection over the chat history: which history line a screen row shows, the
    word under the pointer, and the selection a press, drag and release make. Cursor shapes,
    URL recognition and opening a link are left to the caller; whether a release opened a
    link comes in as `linkOpened`, and the clock as `nowMs`. */
module MouseSelect {
  import opened Wrappers
  import opened JavaString
  import opened Keys

  const StatusShownMs: int := 1200
  const Copied: string := "COPIED"
  const Opened: string := "OPENED"

  datatype MouseAction = Press | Release | Motion | OtherAction
  datatype MouseButton = LeftButton | OtherButton
  datatype MouseEvent = MouseEvent(row: int, column: int, action: MouseAction, button: MouseButton, isWheel: bool)

  /** The maximal run of non-whitespace characters around `col` (clamped into the line):
      it extends left from `col` and right from `col`. */
  predicate IsTokenSpan(line: string, col: int, left: int, right: int)
    requires 0 <= col < |line|
  {
    && 0 <= left <= col <= right <= |line|
    && (forall k | left <= k < col :: !IsWhitespace(line[k]))
    && (left == 0 || IsWhitespace(line[left - 1]))
    && (forall k | col <= k < right :: !IsWhitespace(line[k]))
    && (right == |line| || IsWhitespace(line[right]))
  }

  /** tokenAt: the word under column `col` of the line, trimmed; None for an empty line. */
  method TokenAt(line: string, col: int) returns (token: Option<string>)
    ensures |line| == 0 <==> token.None?
    ensures |line| > 0 ==>
      var c := Max(0, Min(col, |line| - 1));
      exists left, right | IsTokenSpan(line, c, left, right) :: token == Some(Trim(line[left..right]))
  {
    var n := |line|;
    if n == 0 {
      return None;
    }
    var c := Max(0, Min(col, n - 1));
    var left := c;
    while left > 0 && !IsWhitespace(line[left - 1])
      invariant 0 <= left <= c
      invariant forall k | left <= k < c :: !IsWhitespace(line[k])
    {
      left := left - 1;
    }
    var right := c;
    while right < n && !IsWhitespace(line[right])
      invariant c <= right <= n
      invariant forall k | c <= k < right :: !IsWhitespace(line[k])
    {
      right := right + 1;
    }
    assert IsTokenSpan(line, c, left, right);
    return Some(Trim(line[left..right]));
  }

  /** The selection endpoints in reading order. */
  function Ordered(r1: int, c1: int, r2: int, c2: int): (r: (int, int, int, int))
    ensures r == (r1, c1, r2, c2) || r == (r2, c2, r1, c1)
    ensures r.0 < r.2 || (r.0 == r.2 && r.1 <= r.3)
  {
    if r1 > r2 || (r1 == r2 && c1 > c2) then (r2, c2, r1, c1) else (r1, c1, r2, c2)
  }

  /** Dragging from either end selects the same range. */
  lemma OrderedSymmetric(r1: int, c1: int, r2: int, c2: int)
    ensures Ordered(r1, c1, r2, c2) == Ordered(r2, c2, r1, c1)
  {
  }

  function ClampCol(c: int, len: int): (r: int)
    requires len >= 0
    ensures 0 <= r <= len
  {
    Max(0, Min(c, len))
  }

  /** What line `r` of an ordered selection contributes to the copied text. */
  function Piece(line: string, r: int, r1: int, c1: int, r2: int, c2: int): (p: string)
  {
    if r == r1 && r == r2 then
      var s := ClampCol(c1, |line|);
      var e := ClampCol(c2, |line|);
      line[Min(s, e)..Max(s, e)]
    else if r == r1 then line[ClampCol(c1, |line|)..] + "\n"
    else if r == r2 then line[..ClampCol(c2, |line|)]
    else line + "\n"
  }

  /** The copied text of rows r1 up to (not including) `upto`, skipping rows outside the
      history. */
  function SelectionText(lines: seq<string>, r1: int, c1: int, r2: int, c2: int, upto: int): (t: string)
    decreases upto - r1
  {
    if upto <= r1 then ""
    else
      var before := SelectionText(lines, r1, c1, r2, c2, upto - 1);
      var r := upto - 1;
      if r < 0 || r >= |lines| then before else before + Piece(lines[r], r, r1, c1, r2, c2)
  }

  /** A selection inside one line copies just the characters between the two columns. */
  lemma OneLineSelection(lines: seq<string>, r: int, c1: int, c2: int)
    requires 0 <= r < |lines| && 0 <= c1 <= c2 <= |lines[r]|
    ensures SelectionText(lines, r, c1, r, c2, r + 1) == lines[r][c1..c2]
  {
  }

  /** Selecting whole lines copies them joined by line breaks. */
  lemma TwoLineSelection(lines: seq<string>, r: int)
    requires 0 <= r && r + 1 < |lines|
    ensures SelectionText(lines, r, 0, r + 1, |lines[r + 1]|, r + 2) == lines[r] + "\n" + lines[r + 1]
  {
    assert SelectionText(lines, r, 0, r + 1, |lines[r + 1]|, r + 1) == lines[r][0..] + "\n";
    assert lines[r][0..] == lines[r];
    assert lines[r + 1][..|lines[r + 1]|] == lines[r + 1];
  }

  class MouseSelectionController {
    var selecting: bool
    var selectionMoved: bool
    var selectionStartLineIndex: int
    var selectionStartCol: int
    var selectionEndLineIndex: int
    var selectionEndCol: int
    var lastActionAtMs: int
    var lastStatus: Option<string>
    var historyStartRow: int
    var historyStartCol: int
    var historyWindowStartIndex: int
    var visibleHistoryPlain: seq<string>
    var allHistoryPlain: seq<string>

    constructor ()
      ensures !selecting && !selectionMoved && !HasSelection()
      ensures visibleHistoryPlain == [] && allHistoryPlain == [] && lastStatus.None?
    {
      selecting := false;
      selectionMoved := false;
      selectionStartLineIndex := -1;
      selectionStartCol := -1;
      selectionEndLineIndex := -1;
      selectionEndCol := -1;
      lastActionAtMs := 0;
      lastStatus := None;
      historyStartRow := 0;
      historyStartCol := 0;
      historyWindowStartIndex := 0;
      visibleHistoryPlain := [];
      allHistoryPlain := [];
    }

    /** The selection state, field by field. */
    function Sel(): (r: (bool, bool, int, int, int, int))
      reads this`selecting, this`selectionMoved, this`selectionStartLineIndex, this`selectionStartCol,
            this`selectionEndLineIndex, this`selectionEndCol
      ensures r.2 == selectionStartLineIndex && r.4 == selectionEndLineIndex
    {
      (selecting, selectionMoved, selectionStartLineIndex, selectionStartCol, selectionEndLineIndex, selectionEndCol)
    }

    /** Where the history is drawn, and its lines. */
    function Mapping(): (r: (int, int, int, seq<string>, seq<string>))
      reads this`historyStartRow, this`historyStartCol, this`historyWindowStartIndex,
            this`visibleHistoryPlain, this`allHistoryPlain
      ensures r.4 == allHistoryPlain && r.3 == visibleHistoryPlain
    {
      (historyStartRow, historyStartCol, historyWindowStartIndex, visibleHistoryPlain, allHistoryPlain)
    }

    predicate HasSelection()
      reads this`selectionStartLineIndex, this`selectionEndLineIndex
    {
      selectionStartLineIndex != -1 && selectionEndLineIndex != -1
    }

    /** The visible rows are a run of history lines starting at the window start. */
    predicate Consistent()
      reads this
    {
      0 <= historyWindowStartIndex && historyWindowStartIndex + |visibleHistoryPlain| <= |allHistoryPlain|
    }

    /** Each selection end is unset (-1) or a history line. */
    predicate SelectionInRange()
      reads this
    {
      && (selectionStartLineIndex == -1 || 0 <= selectionStartLineIndex < |allHistoryPlain|)
      && (selectionEndLineIndex == -1 || 0 <= selectionEndLineIndex < |allHistoryPlain|)
    }

    /** transientStatus: the last status while it is younger than 1.2 seconds. */
    function TransientStatus(nowMs: int): (r: Option<string>)
      reads this
      ensures r.Some? <==> lastStatus.Some? && nowMs - lastActionAtMs < StatusShownMs
      ensures r.Some? ==> r == lastStatus
    {
      if lastStatus.None? then None
      else if nowMs - lastActionAtMs < StatusShownMs then lastStatus
      else None
    }

    /** visibleLineIndex: the visible row under a screen row, or -1 outside them. */
    function VisibleLineIndex(mouseRow: int): (r: int)
      reads this
      ensures r == -1 || 0 <= r < |visibleHistoryPlain|
      ensures r != -1 <==> historyStartRow <= mouseRow < historyStartRow + |visibleHistoryPlain|
      ensures r != -1 ==> r == mouseRow - historyStartRow
    {
      var index := mouseRow - historyStartRow;
      if index < 0 || index >= |visibleHistoryPlain| then -1 else index
    }

    /** clampLineIndex: -1 without history, otherwise the index forced into the history. */
    function ClampLineIndex(lineIndex: int): (r: int)
      reads this
      ensures |allHistoryPlain| == 0 <==> r == -1
      ensures |allHistoryPlain| > 0 ==> 0 <= r < |allHistoryPlain|
      ensures 0 <= lineIndex < |allHistoryPlain| ==> r == lineIndex
    {
      if |allHistoryPlain| == 0 then -1
      else if lineIndex < 0 then 0
      else Min(lineIndex, |allHistoryPlain| - 1)
    }

    /** clampLineIndexForRow: the history line a drag to `mouseRow` reaches; above the
        visible rows that is the window start, below them the last visible line. */
    function ClampLineIndexForRow(mouseRow: int): (r: int)
      reads this
      ensures |visibleHistoryPlain| == 0 || |allHistoryPlain| == 0 ==> r == -1
      ensures Consistent() && |visibleHistoryPlain| > 0 ==> r != -1
      ensures r != -1 && mouseRow < historyStartRow ==> r == historyWindowStartIndex
      ensures r != -1 && mouseRow >= historyStartRow ==>
        r == Min(historyWindowStartIndex + Min(mouseRow - historyStartRow, |visibleHistoryPlain| - 1),
                 |allHistoryPlain| - 1)
      ensures r != -1 && Consistent() ==> 0 <= r < |allHistoryPlain|
    {
      if |visibleHistoryPlain| == 0 then -1
      else
        var maxLineIndex := if |allHistoryPlain| == 0 then -1 else |allHistoryPlain| - 1;
        if maxLineIndex < 0 then -1
        else if mouseRow < historyStartRow then historyWindowStartIndex
        else
          var lastVisibleRow := historyStartRow + |visibleHistoryPlain| - 1;
          if mouseRow > lastVisibleRow then
            Min(historyWindowStartIndex + |visibleHistoryPlain| - 1, maxLineIndex)
          else Min(historyWindowStartIndex + (mouseRow - historyStartRow), maxLineIndex)
    }

    /** clearSelection */
    method ClearSelection()
      modifies this
      ensures Sel() == (false, false, -1, -1, -1, -1) && !HasSelection()
      ensures Mapping() == old(Mapping())
      ensures lastActionAtMs == old(lastActionAtMs) && lastStatus == old(lastStatus)
    {
      selecting := false;
      selectionMoved := false;
      selectionStartLineIndex := -1;
      selectionStartCol := -1;
      selectionEndLineIndex := -1;
      selectionEndCol := -1;
    }

    /** clampSelectionToHistory: no history clears the selection; otherwise each set end is
        forced into the history. */
    method ClampSelectionToHistory()
      modifies this
      ensures SelectionInRange()
      ensures |allHistoryPlain| == 0 ==> Sel() == (false, false, -1, -1, -1, -1)
      ensures |allHistoryPlain| > 0 ==>
        Sel() == (old(selecting), old(selectionMoved),
                  (if old(selectionStartLineIndex) == -1 then -1 else ClampLineIndex(old(selectionStartLineIndex))),
                  old(selectionStartCol),
                  (if old(selectionEndLineIndex) == -1 then -1 else ClampLineIndex(old(selectionEndLineIndex))),
                  old(selectionEndCol))
      ensures Mapping() == old(Mapping())
      ensures lastActionAtMs == old(lastActionAtMs) && lastStatus == old(lastStatus)
    {
      if |allHistoryPlain| == 0 {
        ClearSelection();
        return;
      }
      var maxIndex := |allHistoryPlain| - 1;
      if selectionStartLineIndex != -1 {
        selectionStartLineIndex := Max(0, Min(selectionStartLineIndex, maxIndex));
      }
      if selectionEndLineIndex != -1 {
        selectionEndLineIndex := Max(0, Min(selectionEndLineIndex, maxIndex));
      }
    }

    /** updateHistoryMapping: records where the history is drawn (null lists read as
        empty) and keeps the selection inside it. */
    method UpdateHistoryMapping(startRow: int, startCol: int, windowStartIndex: int,
                                visiblePlain: Option<seq<string>>, allPlain: Option<seq<string>>)
      modifies this
      ensures SelectionInRange()
      ensures Mapping() == (startRow, startCol, Max(0, windowStartIndex),
                            (if visiblePlain.Some? then visiblePlain.value else []),
                            (if allPlain.Some? then allPlain.value else []))
      ensures |allHistoryPlain| == 0 ==> Sel() == (false, false, -1, -1, -1, -1)
      ensures |allHistoryPlain| > 0 ==>
        Sel() == (old(selecting), old(selectionMoved),
                  (if old(selectionStartLineIndex) == -1 then -1 else ClampLineIndex(old(selectionStartLineIndex))),
                  old(selectionStartCol),
                  (if old(selectionEndLineIndex) == -1 then -1 else ClampLineIndex(old(selectionEndLineIndex))),
                  old(selectionEndCol))
      ensures lastActionAtMs == old(lastActionAtMs) && lastStatus == old(lastStatus)
    {
      historyStartRow := startRow;
      historyStartCol := startCol;
      historyWindowStartIndex := Max(0, windowStartIndex);
      visibleHistoryPlain := if visiblePlain.Some? then visiblePlain.value else [];
      allHistoryPlain := if allPlain.Some? then allPlain.value else [];
      ClampSelectionToHistory();
    }

    /** The text a copy puts on the clipboard: the selected rows, trimmed. */
    function SelectedText(): (t: string)
      reads this`selectionStartLineIndex, this`selectionStartCol, this`selectionEndLineIndex,
            this`selectionEndCol, this`allHistoryPlain
    {
      var o := Ordered(selectionStartLineIndex, selectionStartCol, selectionEndLineIndex, selectionEndCol);
      Trim(SelectionText(allHistoryPlain, o.0, o.1, o.2, o.3, o.2 + 1))
    }

    /** There is a selection over a non-empty history whose trimmed text is not empty. */
    predicate Copyable()
      reads this`selectionStartLineIndex, this`selectionStartCol, this`selectionEndLineIndex,
            this`selectionEndCol, this`allHistoryPlain
    {
      HasSelection() && |allHistoryPlain| > 0 && SelectedText() != ""
    }

    /** The loop of copySelectedHistoryLines, row by row. */
    method CollectSelection(r1: int, c1: int, r2: int, c2: int) returns (text: string)
      ensures text == SelectionText(allHistoryPlain, r1, c1, r2, c2, Max(r1, r2 + 1))
    {
      text := "";
      var r := r1;
      while r <= r2
        invariant r1 <= r <= Max(r1, r2 + 1)
        invariant text == SelectionText(allHistoryPlain, r1, c1, r2, c2, r)
      {
        if 0 <= r < |allHistoryPlain| {
          var line := allHistoryPlain[r];
          if r == r1 && r == r2 {
            var start := Max(0, Min(c1, |line|));
            var end := Max(0, Min(c2, |line|));
            text := text + line[Min(start, end)..Max(start, end)];
          } else if r == r1 {
            var start := Max(0, Min(c1, |line|));
            text := text + line[Min(start, |line|)..] + "\n";
          } else if r == r2 {
            var end := Max(0, Min(c2, |line|));
            text := text + line[..Min(end, |line|)];
          } else {
            text := text + line + "\n";
          }
        }
        r := r + 1;
      }
    }

    /** The selected rows in reading order, trimmed. */
    method TrimmedSelection() returns (result: string)
      ensures result == SelectedText()
    {
      var o := Ordered(selectionStartLineIndex, selectionStartCol, selectionEndLineIndex, selectionEndCol);
      var text := CollectSelection(o.0, o.1, o.2, o.3);
      assert Max(o.0, o.2 + 1) == o.2 + 1;
      result := Trim(text);
    }

    /** copySelectedHistoryLines: copies the trimmed selection unless there is none or it
        is empty, and then shows "COPIED". */
    method CopySelectedHistoryLines(nowMs: int) returns (copied: Option<string>)
      ensures copied.Some? <==> Copyable()
      ensures copied.Some? ==> copied.value == SelectedText()
      ensures copied.Some? ==> lastStatus == Some(Copied) && lastActionAtMs == nowMs
      ensures copied.None? ==> lastStatus == old(lastStatus) && lastActionAtMs == old(lastActionAtMs)
      modifies this`lastActionAtMs, this`lastStatus
    {
      if !HasSelection() || |allHistoryPlain| == 0 {
        return None;
      }
      var result := TrimmedSelection();
      if result == "" {
        return None;
      }
      assert Copyable();
      lastActionAtMs := nowMs;
      lastStatus := Some(Copied);
      copied := Some(result);
    }

    /** A left press: a one-point selection on the history line under the pointer, or
        no selection when the press misses the history. */
    method PressAt(row: int, col: int)
      modifies this
      requires col >= 0
      ensures Mapping() == old(Mapping())
      ensures lastActionAtMs == old(lastActionAtMs) && lastStatus == old(lastStatus)
      ensures var v := old(VisibleLineIndex(row));
        var line := old(ClampLineIndex(historyWindowStartIndex + v));
        && (v == -1 || line == -1 ==> Sel() == (false, false, -1, -1, -1, -1))
        && (v != -1 && line != -1 ==> Sel() == (true, false, line, col, line, col))
    {
      var visibleRowIndex := VisibleLineIndex(row);
      if visibleRowIndex >= 0 {
        var startLineIndex := ClampLineIndex(historyWindowStartIndex + visibleRowIndex);
        if startLineIndex == -1 {
          ClearSelection();
          return;
        }
        selecting := true;
        selectionMoved := false;
        selectionStartLineIndex := startLineIndex;
        selectionStartCol := col;
        selectionEndLineIndex := startLineIndex;
        selectionEndCol := col;
      } else {
        ClearSelection();
      }
    }

    /** Moves the far end of the selection to the line a drag reaches. */
    method Extend(row: int, col: int)
      modifies this
      ensures Mapping() == old(Mapping())
      ensures lastActionAtMs == old(lastActionAtMs) && lastStatus == old(lastStatus)
      ensures var target := old(ClampLineIndexForRow(row));
        Sel() == (old(selecting), old(selectionMoved), old(selectionStartLineIndex), old(selectionStartCol),
                  (if target != -1 then target else old(selectionEndLineIndex)), col)
    {
      var targetLineIndex := ClampLineIndexForRow(row);
      if targetLineIndex != -1 {
        selectionEndLineIndex := targetLineIndex;
      }
      selectionEndCol := col;
    }

    /** What a release at (`row`, `col`) leaves behind: the drag is over; a click that
        opened a link clears the selection and shows "OPENED"; anything else moves the far
        end to the row and column and copies the selection exactly when there is text to
        copy, showing "COPIED", and leaves the status alone otherwise. */
    twostate predicate Released(row: int, col: int, nowMs: int, linkOpened: bool, new copied: Option<string>)
      reads this
    {
      && !selecting
      && (!old(selectionMoved) && linkOpened ==>
            copied.None? && Sel() == (false, false, -1, -1, -1, -1) && lastStatus == Some(Opened) && lastActionAtMs == nowMs)
      && (old(selectionMoved) || !linkOpened ==>
            var target := old(ClampLineIndexForRow(row));
            && Sel() == (false, old(selectionMoved), old(selectionStartLineIndex), old(selectionStartCol),
                         (if target != -1 then target else old(selectionEndLineIndex)), col)
            && (copied.Some? <==> Copyable())
            && (copied.Some? ==> copied.value == SelectedText() && lastStatus == Some(Copied) && lastActionAtMs == nowMs)
            && (copied.None? ==> lastStatus == old(lastStatus) && lastActionAtMs == old(lastActionAtMs)))
    }

    /** The release branch of handle, as Released states. */
    method ReleaseAt(row: int, col: int, nowMs: int, linkOpened: bool) returns (copied: Option<string>)
      modifies this
      ensures Mapping() == old(Mapping())
      ensures !selecting
      ensures !old(selectionMoved) && linkOpened ==>
        copied.None? && Sel() == (false, false, -1, -1, -1, -1) && lastStatus == Some(Opened) && lastActionAtMs == nowMs
      ensures old(selectionMoved) || !linkOpened ==>
        var target := old(ClampLineIndexForRow(row));
        && Sel() == (false, old(selectionMoved), old(selectionStartLineIndex), old(selectionStartCol),
                     (if target != -1 then target else old(selectionEndLineIndex)), col)
        && (copied.Some? <==> Copyable())
        && (copied.Some? ==> copied.value == SelectedText() && lastStatus == Some(Copied) && lastActionAtMs == nowMs)
        && (copied.None? ==> lastStatus == old(lastStatus) && lastActionAtMs == old(lastActionAtMs))
      ensures Released(row, col, nowMs, linkOpened, copied)
    {
      selecting := false;
      Extend(row, col);
      if !selectionMoved && linkOpened {
        lastActionAtMs := nowMs;
        lastStatus := Some(Opened);
        ClearSelection();
        copied := None;
      } else {
        copied := CopySelectedHistoryLines(nowMs);
      }
    }

    /** handle: the selection transitions of a mouse event (wheel events and a missing
        event change nothing). Returns the text copied, if any. */
    method Handle(mouse: Option<MouseEvent>, nowMs: int, linkOpened: bool) returns (copied: Option<string>)
      modifies this
      ensures Mapping() == old(Mapping())
      ensures Consistent() && old(SelectionInRange()) ==> SelectionInRange()
      ensures mouse.None? || mouse.value.isWheel ==> copied.None? && Sel() == old(Sel())
      ensures mouse.Some? && !mouse.value.isWheel && mouse.value.action == Press && mouse.value.button == LeftButton ==>
        var v := old(VisibleLineIndex(mouse.value.row));
        var line := old(ClampLineIndex(historyWindowStartIndex + v));
        var col := Max(0, mouse.value.column - historyStartCol);
        && copied.None?
        && (v == -1 || line == -1 ==> Sel() == (false, false, -1, -1, -1, -1))
        && (v != -1 && line != -1 ==> Sel() == (true, false, line, col, line, col))
      ensures mouse.Some? && !mouse.value.isWheel && mouse.value.action == Motion && old(selecting) ==>
        var target := old(ClampLineIndexForRow(mouse.value.row));
        && copied.None?
        && Sel() == (true, true, old(selectionStartLineIndex), old(selectionStartCol),
                     (if target != -1 then target else old(selectionEndLineIndex)),
                     Max(0, mouse.value.column - historyStartCol))
      ensures mouse.Some? && !mouse.value.isWheel && mouse.value.action == Release && old(selecting) ==>
        Released(mouse.value.row, Max(0, mouse.value.column - historyStartCol), nowMs, linkOpened, copied)
      ensures mouse.Some? && !mouse.value.isWheel && !(mouse.value.action == Press && mouse.value.button == LeftButton)
        && !(mouse.value.action in {Motion, Release} && old(selecting))
        ==> copied.None? && Sel() == old(Sel())
      ensures !(mouse.Some? && !mouse.value.isWheel && mouse.value.action == Release && old(selecting)) ==>
        lastStatus == old(lastStatus) && lastActionAtMs == old(lastActionAtMs)
    {
      copied := None;
      if mouse.None? || mouse.value.isWheel {
        return;
      }
      var m := mouse.value;
      var col := m.column - historyStartCol;
      if col < 0 {
        col := 0;
      }
      if m.action == Press && m.button == LeftButton {
        PressAt(m.row, col);
        return;
      }
      if m.action == Motion && selecting {
        selectionMoved := true;
        Extend(m.row, col);
        return;
      }
      if m.action == Release && selecting {
        copied := ReleaseAt(m.row, col, nowMs, linkOpened);
        return;
      }
    }
  }
}
