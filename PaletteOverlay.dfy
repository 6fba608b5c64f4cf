/** Where a palette box sits on the screen and which item a mouse position points at.
    The styled text of the box is not modelled, only its geometry; an overlay is any block
    of lines placed at a top row. */
module OverlayGeometry {
  import opened Wrappers
  import opened JavaString
  import opened Keys

  /** The geometry of a rendered palette box. */
  datatype Layout = Layout(
    topRow: int, leftCol: int, boxWidth: int, innerBoxWidth: int,
    maxItems: int, scrollTop: int, totalItems: int)
  {
    /** Title, two dividers, footer and two borders add six rows to the items. */
    function BoxHeight(): int { maxItems + 6 }

    /** Items start below the top border, the title and the first divider. */
    function ItemRowStart(): int { topRow + 3 }

    /** visibleItemCount: how many items the window shows. */
    function VisibleItemCount(): (r: int)
      ensures totalItems <= 0 || scrollTop >= totalItems ==> r == 0
      ensures totalItems > 0 && scrollTop < totalItems ==>
        r <= maxItems && r <= totalItems - scrollTop && (r == maxItems || r == totalItems - scrollTop)
      ensures 0 <= maxItems ==> 0 <= r <= maxItems
    {
      if totalItems <= 0 || scrollTop >= totalItems then 0
      else Min(maxItems, totalItems - scrollTop)
    }

    /** contains: the position lies in the half-open box rectangle. */
    predicate Contains(column: int, row: int) {
      column >= leftCol && row >= topRow && column < leftCol + boxWidth && row < topRow + BoxHeight()
    }

    /** itemIndexAt: the item under the position, or -1 outside the item rows, outside the
        inner width, or below the last item. */
    function ItemIndexAt(column: int, row: int): (r: int)
      ensures r != -1 <==>
        ItemRowStart() <= row < ItemRowStart() + maxItems
        && leftCol + 1 <= column < leftCol + 1 + innerBoxWidth
        && scrollTop + (row - ItemRowStart()) < totalItems
        && scrollTop + (row - ItemRowStart()) != -1
      ensures r != -1 ==> r == scrollTop + (row - ItemRowStart()) && r < totalItems
    {
      var itemTop := ItemRowStart();
      var itemBottom := itemTop + maxItems;
      var innerLeft := leftCol + 1;
      var innerRight := innerLeft + innerBoxWidth;
      if row < itemTop || row >= itemBottom then -1
      else if column < innerLeft || column >= innerRight then -1
      else
        var index := scrollTop + (row - itemTop);
        if index < totalItems then index else -1
    }

    /** The shape every rendered layout has. */
    predicate WellFormed() {
      innerBoxWidth == boxWidth - 2 && boxWidth >= 24 && maxItems >= 1 && scrollTop >= 0
    }
  }

  /** The geometry render computes, or None when the screen is too small for a box. */
  function RenderLayout(total: nat, selectedIndex: int, innerWidth: int, innerHeight: int, dividerRow: int)
    : (r: Option<Layout>)
    ensures r.None? <==> innerWidth < 20 || innerHeight < 10
    ensures r.Some? ==>
      var l := r.value;
      && l.WellFormed() && l.totalItems == total
      && 24 <= l.boxWidth <= 64
      && 1 <= l.maxItems <= innerHeight - 9
      && (total <= l.maxItems ==> l.scrollTop == 0)
      && (total > l.maxItems ==> 0 <= l.scrollTop <= total - l.maxItems)
      && 1 <= l.topRow && l.topRow + l.BoxHeight() <= innerHeight
      && l.leftCol >= 0
  {
    if innerWidth < 20 || innerHeight < 10 then None
    else
      var maxItems := Max(1, Min(Max(1, total), innerHeight - 9));
      var boxWidth := Max(24, Min(64, innerWidth - 6));
      var boxHeight := maxItems + 6;
      var bottom := Max(1, Min(dividerRow, innerHeight - 1));
      var top := Min(Max(1, bottom - boxHeight), Max(1, innerHeight - boxHeight));
      var leftPad := Max(0, DivTrunc(innerWidth - boxWidth, 2));
      var scrollTop := if total > maxItems then Max(0, Min(total - maxItems, selectedIndex - maxItems / 2)) else 0;
      Some(Layout(top, leftPad, boxWidth, boxWidth - 2, maxItems, scrollTop, total))
  }

  /** The window always shows the selected item. */
  lemma SelectionVisible(total: nat, selectedIndex: int, innerWidth: int, innerHeight: int, dividerRow: int)
    requires innerWidth >= 20 && innerHeight >= 10
    requires 0 <= selectedIndex < total
    ensures var l := RenderLayout(total, selectedIndex, innerWidth, innerHeight, dividerRow).value;
      l.scrollTop <= selectedIndex < l.scrollTop + l.VisibleItemCount()
  {
    var l := RenderLayout(total, selectedIndex, innerWidth, innerHeight, dividerRow).value;
    var m := l.maxItems;
    if total > m {
      assert m - m / 2 > 0;
      assert l.scrollTop <= selectedIndex;
    }
  }

  /** Every row the window fills maps back to its item, and a hit is always inside the box. */
  lemma ItemRowsRoundTrip(l: Layout, k: int)
    requires l.WellFormed() && 0 <= k < l.VisibleItemCount()
    ensures l.ItemIndexAt(l.leftCol + 1, l.ItemRowStart() + k) == l.scrollTop + k
    ensures l.Contains(l.leftCol + 1, l.ItemRowStart() + k)
  {
  }

  lemma HitInsideBox(l: Layout, column: int, row: int)
    requires l.WellFormed() && l.ItemIndexAt(column, row) != -1
    ensures l.Contains(column, row)
    ensures l.scrollTop <= l.ItemIndexAt(column, row) < l.scrollTop + l.VisibleItemCount()
  {
  }

  /** Two items on a 60 by 20 screen with the divider on row 10: the first item row, one
      column in from the box edge, is item 0. */
  lemma FirstItemRowIsItemZero()
    ensures var l := RenderLayout(2, 0, 60, 20, 10).value;
      l.ItemIndexAt(l.leftCol + 1, l.ItemRowStart()) == 0
  {
  }

  /** A block of lines to paint at a top row. */
  datatype Overlay = Overlay(topRow: int, lines: seq<string>)

  /** The screen after painting: rows the overlay covers take its lines, the rest stay. */
  function Painted(base: seq<string>, overlay: Option<Overlay>): (r: seq<string>)
    ensures |r| == |base|
    ensures overlay.None? ==> r == base
    ensures overlay.Some? ==> forall j | 0 <= j < |base| ::
      r[j] == (if overlay.value.topRow <= j < overlay.value.topRow + |overlay.value.lines|
               then overlay.value.lines[j - overlay.value.topRow] else base[j])
  {
    if overlay.None? then base
    else
      var o := overlay.value;
      seq(|base|, j requires 0 <= j < |base| =>
        if o.topRow <= j < o.topRow + |o.lines| then o.lines[j - o.topRow] else base[j])
  }

  /** apply: paints the overlay onto the screen buffer row by row, skipping rows off
      screen. */
  method Apply(overlay: Option<Overlay>, baseLines: array<string>)
    modifies baseLines
    ensures baseLines[..] == Painted(old(baseLines[..]), overlay)
  {
    if overlay.None? || |overlay.value.lines| == 0 {
      return;
    }
    var o := overlay.value;
    var i := 0;
    while i < |o.lines|
      invariant 0 <= i <= |o.lines|
      invariant forall j | 0 <= j < baseLines.Length ::
        baseLines[j] == (if o.topRow <= j < o.topRow + i then o.lines[j - o.topRow] else old(baseLines[j]))
    {
      var row := o.topRow + i;
      if 0 <= row < baseLines.Length {
        baseLines[row] := o.lines[i];
      }
      i := i + 1;
    }
  }
}
