/** Key presses as the terminal toolkit reports them. The toolkit's aliases map Enter to
    carriage return, Tab to horizontal tab and Backspace to DEL; Ctrl+H arrives as BS.
    Also the selection arithmetic the palettes share. */
module Keys {
  datatype KeyType =
    | Runes | Escape | Up | Down | PageUp | PageDown | Left | Right | Home | End | Space
    | CarriageReturn | HorizontalTab | BS | DEL | OtherKey

  /** A key press; `runes` holds the typed characters of a Runes press (a null array is
      the empty sequence). */
  datatype Key = Key(kind: KeyType, runes: seq<char>)

  const EnterKey: KeyType := CarriageReturn
  const TabKey: KeyType := HorizontalTab
  const BackspaceKey: KeyType := DEL

  /** A palette's selection clamp: 0 without matches, otherwise the index forced into
      [0, count-1]. */
  function Clamp(index: int, count: int): (r: int)
    ensures count <= 0 ==> r == 0
    ensures count > 0 ==> 0 <= r < count
    ensures count > 0 && 0 <= index < count ==> r == index
    ensures count > 0 && index >= count ==> r == count - 1
    ensures index < 0 ==> r == 0
  {
    if count <= 0 then 0 else Max(0, Min(index, count - 1))
  }

  function Max(a: int, b: int): int { if a >= b then a else b }
  function Min(a: int, b: int): int { if a <= b then a else b }

  /** Where an arrow or page key moves a selection among `count` matches: one step for
      arrows, five for pages, never past either end; nothing moves without matches. */
  function Moved(kind: KeyType, index: int, count: int): (r: int)
    requires kind in {Up, Down, PageUp, PageDown}
    ensures count <= 0 ==> r == index
    ensures count > 0 && 0 <= index < count ==> 0 <= r < count
    ensures count > 0 && 0 <= index < count && kind in {Up, PageUp} ==>
      r <= index && (index > 0 ==> r < index) && (kind == Up ==> r >= index - 1)
    ensures count > 0 && 0 <= index < count && kind in {Down, PageDown} ==>
      r >= index && (index < count - 1 ==> r > index) && (kind == Down ==> r <= index + 1)
  {
    if count <= 0 then index
    else if kind == Up then Max(0, index - 1)
    else if kind == Down then Min(count - 1, index + 1)
    else if kind == PageUp then Max(0, index - 5)
    else Min(count - 1, index + 5)
  }
}
