/** Scroll state of the chat history, anchored at the bottom: offset 0 shows the newest
    lines, and the offset counts how far the view has moved up, at most 50000 lines. */
module Viewport {
  import opened JavaString
  import opened Keys

  const MaxScrollOffset: int := 50_000

  /** scrollUp as written: the addition is Java's 32-bit int addition, so a large enough
      amount wraps around before the cap is applied. */
  function ScrollUpAsWritten(offset: int, lines: int): (r: int)
    requires INT_MIN <= offset <= INT_MAX && INT_MIN <= lines <= INT_MAX
    ensures lines <= 0 ==> r == offset
    ensures lines > 0 ==> r == Min(Wrap32(offset + lines), MaxScrollOffset)
  {
    if lines <= 0 then offset else Min(Wrap32(offset + lines), MaxScrollOffset)
  }

  /** Scrolling up by the largest int from offset 1 wraps to a negative offset, which the
      next window computation turns into 0: the view jumps to the newest lines instead of
      the oldest. */
  lemma ScrollUpOverflows()
    ensures ScrollUpAsWritten(1, INT_MAX) == INT_MIN
    ensures ScrollUpAsWritten(1, INT_MAX) < 0
  {
    assert Wrap32(1 + INT_MAX) == INT_MIN;
  }

  /** scrollUp as intended: the offset grows by `lines`, capped at 50000, without wrapping. */
  function ScrollUpTarget(offset: int, lines: int): (r: int)
    requires 0 <= offset <= MaxScrollOffset
    ensures 0 <= r <= MaxScrollOffset
    ensures lines <= 0 ==> r == offset
    ensures lines > 0 ==> r >= offset && (r == MaxScrollOffset || r == offset + lines)
    ensures lines > 0 && offset + lines <= MaxScrollOffset ==> r == offset + lines
  {
    if lines <= 0 then offset
    else if lines >= MaxScrollOffset - offset then MaxScrollOffset
    else offset + lines
  }

  /** Wherever the sum does not wrap, the intended and the written scrollUp agree. */
  lemma ScrollUpAgreesWithoutWrap(offset: int, lines: int)
    requires 0 <= offset <= MaxScrollOffset && 0 <= lines && offset + lines <= INT_MAX
    ensures ScrollUpAsWritten(offset, lines) == ScrollUpTarget(offset, lines)
  {
    if lines > 0 {
      assert Wrap32(offset + lines) == offset + lines by {
        assert (offset + lines - INT_MIN) % 0x1_0000_0000 == offset + lines - INT_MIN;
      }
    }
  }

  /** A visible range of history lines. */
  datatype Window = Window(startInclusive: int, endExclusive: int)

  /** The offset window() keeps: the stored one clamped into what the content allows. */
  function ClampedOffset(offset: int, totalLines: int, maxLines: int): (r: int)
    ensures 0 <= r <= Max(0, Max(0, totalLines) - Max(0, maxLines))
    ensures 0 <= offset <= Max(0, Max(0, totalLines) - Max(0, maxLines)) ==> r == offset
  {
    var total := Max(0, totalLines);
    var height := Max(0, maxLines);
    Max(0, Min(offset, Max(0, total - height)))
  }

  /** The lines shown for a clamped offset: the `maxLines` lines ending `offset` lines above
      the bottom. */
  function WindowAt(offset: int, totalLines: int, maxLines: int): (w: Window)
    requires 0 <= offset
    ensures 0 <= w.startInclusive <= w.endExclusive <= Max(0, totalLines)
    ensures w.endExclusive - w.startInclusive <= Max(0, maxLines)
    ensures offset <= Max(0, totalLines) ==> w.endExclusive == Max(0, totalLines) - offset
    ensures offset == 0 ==> w.endExclusive == Max(0, totalLines)
  {
    var total := Max(0, totalLines);
    var height := Max(0, maxLines);
    var endExclusive := Max(0, total - offset);
    Window(Max(0, endExclusive - height), endExclusive)
  }

  /** With at least a screenful of content the window is exactly a screenful. */
  lemma FullWindow(offset: int, totalLines: int, maxLines: int)
    requires 0 <= maxLines <= totalLines
    requires offset == ClampedOffset(offset, totalLines, maxLines)
    ensures var w := WindowAt(offset, totalLines, maxLines);
      w.endExclusive - w.startInclusive == maxLines
  {
  }

  class HistoryViewport {
    var scrollOffsetLines: int

    /** The offset never leaves [0, 50000]. */
    predicate Valid()
      reads this
    {
      0 <= scrollOffsetLines <= MaxScrollOffset
    }

    constructor ()
      ensures Valid() && scrollOffsetLines == 0
    {
      scrollOffsetLines := 0;
    }

    /** scrollUp, with the cap applied before the sum can wrap. */
    method ScrollUp(lines: int)
      requires Valid()
      modifies this
      ensures Valid()
      ensures scrollOffsetLines == ScrollUpTarget(old(scrollOffsetLines), lines)
    {
      if lines <= 0 {
        return;
      }
      if lines >= MaxScrollOffset - scrollOffsetLines {
        scrollOffsetLines := MaxScrollOffset;
      } else {
        scrollOffsetLines := scrollOffsetLines + lines;
      }
    }

    /** scrollDown: never below 0 (the difference cannot wrap while the offset is at least
        0 and `lines` is a Java int). */
    method ScrollDown(lines: int)
      requires Valid()
      modifies this
      ensures Valid()
      ensures lines <= 0 ==> scrollOffsetLines == old(scrollOffsetLines)
      ensures lines > 0 ==> scrollOffsetLines == Max(0, old(scrollOffsetLines) - lines)
    {
      if lines <= 0 {
        return;
      }
      scrollOffsetLines := Max(0, scrollOffsetLines - lines);
    }

    /** follow: back to the newest lines. */
    method Follow()
      modifies this
      ensures Valid() && scrollOffsetLines == 0
    {
      scrollOffsetLines := 0;
    }

    /** top: as far up as the cap allows. */
    method Top()
      modifies this
      ensures Valid() && scrollOffsetLines == MaxScrollOffset
    {
      scrollOffsetLines := MaxScrollOffset;
    }

    /** window: clamps the stored offset to the content and returns the visible range. */
    method WindowFor(totalLines: int, maxLines: int) returns (w: Window)
      requires Valid()
      modifies this
      ensures Valid()
      ensures scrollOffsetLines == ClampedOffset(old(scrollOffsetLines), totalLines, maxLines)
      ensures w == WindowAt(scrollOffsetLines, totalLines, maxLines)
    {
      var total := totalLines;
      var height := maxLines;
      if total < 0 { total := 0; }
      if height < 0 { height := 0; }
      var maxScrollOffset := Max(0, total - height);
      scrollOffsetLines := Max(0, Min(scrollOffsetLines, maxScrollOffset));
      var endExclusive := Max(0, total - scrollOffsetLines);
      var startInclusive := Max(0, endExclusive - height);
      return Window(startInclusive, endExclusive);
    }
  }
}
