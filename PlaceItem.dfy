/** A place search result and how the place picker shows it: an icon chosen from the
    category, and an address shortened to fit one line. */
module Places {
  import opened Wrappers
  import opened JavaString

  /** A search result (its coordinates are left out). */
  datatype PlaceResult = PlaceResult(
    name: string, address: Option<string>, category: Option<string>,
    placeId: Option<string>, phone: Option<string>, url: Option<string>)

  const MaxDescLength: int := 50

  datatype Icon =
    | Pin | Coffee | Dining | Drinks | Lodging | Fuel | Medical | Pharmacy | Bank | Grocery
    | Fitness | Park | Museum | Theater | Airport | Station | School | Library | Shopping

  /** The emoji shown for each icon. */
  function Glyph(icon: Icon): string {
    match icon
    case Pin => "\U{1F4CD}"
    case Coffee => "\U{2615}"
    case Dining => "\U{1F37D}"
    case Drinks => "\U{1F37A}"
    case Lodging => "\U{1F3E8}"
    case Fuel => "\U{26FD}"
    case Medical => "\U{1F3E5}"
    case Pharmacy => "\U{1F48A}"
    case Bank => "\U{1F3E6}"
    case Grocery => "\U{1F6D2}"
    case Fitness => "\U{1F4AA}"
    case Park => "\U{1F333}"
    case Museum => "\U{1F3DB}"
    case Theater => "\U{1F3AD}"
    case Airport => "\U{2708}"
    case Station => "\U{1F689}"
    case School => "\U{1F393}"
    case Library => "\U{1F4DA}"
    case Shopping => "\U{1F6CD}"
  }

  /** The keywords tried against the lower-cased category, in the order they are tried. */
  const IconRules: seq<(seq<string>, Icon)> := [
    (["coffee", "cafe"], Coffee),
    (["restaurant", "food"], Dining),
    (["bar", "pub"], Drinks),
    (["hotel", "lodging"], Lodging),
    (["gas", "fuel"], Fuel),
    (["hospital", "medical"], Medical),
    (["pharmacy", "drug"], Pharmacy),
    (["bank", "atm"], Bank),
    (["grocery", "supermarket"], Grocery),
    (["gym", "fitness"], Fitness),
    (["park"], Park),
    (["museum", "gallery"], Museum),
    (["theater", "cinema"], Theater),
    (["airport"], Airport),
    (["train", "station"], Station),
    (["school", "university"], School),
    (["library"], Library),
    (["shop", "store", "mall"], Shopping)
  ]

  predicate RuleMatches(rule: (seq<string>, Icon), lower: string) {
    exists k | 0 <= k < |rule.0| :: Contains(lower, rule.0[k])
  }

  /** The icon of the first rule whose keyword occurs in `lower`; the pin when none does. */
  function FirstIcon(rules: seq<(seq<string>, Icon)>, lower: string): (r: Icon)
    ensures (forall i | 0 <= i < |rules| :: !RuleMatches(rules[i], lower)) ==> r == Pin
    ensures forall i | 0 <= i < |rules| && RuleMatches(rules[i], lower)
              && (forall j | 0 <= j < i :: !RuleMatches(rules[j], lower)) :: r == rules[i].1
  {
    if |rules| == 0 then Pin
    else if RuleMatches(rules[0], lower) then rules[0].1
    else FirstIcon(rules[1..], lower)
  }

  /** getCategoryIcon: the pin for a missing or blank category. */
  function CategoryIcon(category: Option<string>): (r: Icon)
    ensures category.None? || IsBlank(category.value) ==> r == Pin
    ensures category.Some? && !IsBlank(category.value) ==> r == FirstIcon(IconRules, ToLower(category.value))
  {
    if category.None? || IsBlank(category.value) then Pin
    else FirstIcon(IconRules, ToLower(category.value))
  }

  /** name(): the category icon, a space, then the place's name. */
  function Name(place: PlaceResult): (r: string)
    ensures StartsWith(r, Glyph(CategoryIcon(place.category)))
    ensures EndsWith(r, " " + place.name)
  {
    Labeled(Glyph(CategoryIcon(place.category)), place.name)
  }

  function Labeled(icon: string, name: string): (r: string)
    ensures StartsWith(r, icon) && EndsWith(r, " " + name)
  {
    assert (icon + " " + name)[..|icon|] == icon;
    assert (icon + " " + name)[|icon|..] == " " + name;
    icon + " " + name
  }

  /** truncate: text longer than `maxLen` is cut to exactly `maxLen` characters, the last
      three replaced by "..." when there is room for them. */
  function Truncate(s: string, maxLen: int): (r: string)
    requires maxLen >= 0
    ensures |s| <= maxLen ==> r == s
    ensures |s| > maxLen ==> |r| == maxLen
    ensures |s| > maxLen && maxLen <= 3 ==> r == s[..maxLen]
    ensures |s| > maxLen && maxLen > 3 ==> r[..maxLen - 3] == s[..maxLen - 3] && r[maxLen - 3..] == "..."
  {
    if |s| <= maxLen then s
    else if maxLen <= 3 then s[..maxLen]
    else s[..maxLen - 3] + "..."
  }

  /** The pieces of `s` between commas. */
  function Segments(s: string): (r: seq<string>)
    ensures |r| >= 1
    ensures forall i | 0 <= i < |r| :: ',' !in r[i]
    decreases |s|
  {
    var k := IndexOf(s, ',');
    if k < 0 then [s] else [s[..k]] + Segments(s[k + 1..])
  }

  /** Joining the pieces with commas gives back the text. */
  lemma {:induction false} SegmentsJoin(s: string)
    ensures Join(Segments(s), ",") == s
    decreases |s|
  {
    var k := IndexOf(s, ',');
    if k >= 0 {
      SegmentsJoin(s[k + 1..]);
      SegmentsCons(s, k);
      JoinCons(s[..k], Segments(s[k + 1..]), ",");
      assert s == s[..k] + "," + s[k + 1..];
    }
  }

  lemma SegmentsCons(s: string, k: int)
    requires k == IndexOf(s, ',') && k >= 0
    ensures Segments(s) == [s[..k]] + Segments(s[k + 1..])
  {
  }

  lemma JoinCons(p: string, rest: seq<string>, sep: string)
    requires |rest| >= 1
    ensures Join([p] + rest, sep) == p + sep + Join(rest, sep)
  {
    assert ([p] + rest)[1..] == rest;
  }

  function StripRegexSpace(s: string): (r: string)
    ensures |r| <= |s| && r == s[|s| - |r|..]
    ensures r == [] || !IsRegexSpace(r[0])
  {
    if |s| > 0 && IsRegexSpace(s[0]) then StripRegexSpace(s[1..]) else s
  }

  /** Removes the empty strings at the end, as String.split does. */
  function DropTrailingEmpty(parts: seq<string>): (r: seq<string>)
    ensures |r| <= |parts| && r == parts[..|r|]
    ensures |r| == 0 || r[|r| - 1] != ""
    ensures forall i | |r| <= i < |parts| :: parts[i] == ""
  {
    if |parts| == 0 then []
    else if parts[|parts| - 1] == "" then DropTrailingEmpty(parts[..|parts| - 1])
    else parts
  }

  /** split(",\\s*"): the pieces between commas, each piece after a comma without the
      whitespace that follows the comma, and trailing empty pieces dropped. */
  function SplitAddress(s: string): (r: seq<string>)
    ensures forall i | 0 <= i < |r| :: ',' !in r[i]
  {
    var segs := Segments(s);
    var parts := [segs[0]] + seq(|segs| - 1, i requires 0 <= i < |segs| - 1 => StripRegexSpace(segs[i + 1]));
    assert forall i | 0 <= i < |parts| :: ',' !in parts[i] by {
      forall i | 0 <= i < |parts| ensures ',' !in parts[i] {
        if i > 0 {
          assert parts[i] == StripRegexSpace(segs[i]);
          assert parts[i] == segs[i][|segs[i]| - |parts[i]|..];
        }
      }
    }
    DropTrailingEmpty(parts)
  }

  /** Two comma-free pieces written "a, b" split back into the two pieces. */
  lemma SplitTwoParts(a: string, b: string)
    requires ',' !in a && ',' !in b && b != "" && !IsRegexSpace(b[0])
    ensures SplitAddress(a + ", " + b) == [a, b]
  {
    SegmentsTwo(a, b);
    assert StripRegexSpace(" " + b) == b by {
      assert (" " + b)[1..] == b;
    }
    var segs := Segments(a + ", " + b);
    var parts := [segs[0]] + seq(|segs| - 1, i requires 0 <= i < |segs| - 1 => StripRegexSpace(segs[i + 1]));
    assert parts == [a, b];
  }

  lemma SegmentsTwo(a: string, b: string)
    requires ',' !in a && ',' !in b
    ensures Segments(a + ", " + b) == [a, " " + b]
  {
    var s := a + ", " + b;
    assert s[|a|] == ',' && s[..|a|] == a;
    assert IndexOf(s, ',') == |a|;
    assert s[|a| + 1..] == " " + b;
    assert ',' !in " " + b;
    SegmentsCons(s, |a|);
  }

  /** The non-blank parts, each trimmed, in order. */
  function NonBlankTrimmed(parts: seq<string>): (r: seq<string>)
    ensures |r| <= |parts|
    ensures (forall i | 0 <= i < |parts| :: !IsBlank(parts[i])) ==> |r| == |parts|
    ensures forall i | 0 <= i < |r| :: r[i] == [] || (!IsTrimmable(r[i][0]) && !IsTrimmable(r[i][|r[i]| - 1]))
  {
    if |parts| == 0 then []
    else (if IsBlank(parts[0]) then [] else [Trim(parts[0])]) + NonBlankTrimmed(parts[1..])
  }

  /** formatAddressForDisplay: the trimmed address when it fits; otherwise a single-part
      address is cut, an address of three or more parts loses its first (street) part,
      and a two-part address is rejoined, each then cut to fit. */
  function FormatAddress(address: Option<string>, maxLen: int): (r: string)
    requires maxLen >= 0
    ensures |r| <= maxLen
    ensures address.None? || IsBlank(address.value) ==> r == ""
    ensures address.Some? && !IsBlank(address.value) ==>
      var clean := Trim(address.value);
      var parts := SplitAddress(clean);
      && (|clean| <= maxLen ==> r == clean)
      && (|clean| > maxLen && |parts| <= 1 ==> r == Truncate(clean, maxLen))
      && (|clean| > maxLen && |parts| >= 3 ==> r == Truncate(Join(NonBlankTrimmed(parts[1..]), ", "), maxLen))
      && (|clean| > maxLen && |parts| == 2 ==> r == Truncate(Join(NonBlankTrimmed(parts), ", "), maxLen))
  {
    if address.None? || IsBlank(address.value) then ""
    else
      var clean := Trim(address.value);
      if |clean| <= maxLen then clean
      else
        var parts := SplitAddress(clean);
        if |parts| <= 1 then Truncate(clean, maxLen)
        else if |parts| >= 3 then
          var shorter := Join(NonBlankTrimmed(parts[1..]), ", ");
          if |shorter| <= maxLen then shorter else Truncate(shorter, maxLen)
        else Truncate(Join(NonBlankTrimmed(parts), ", "), maxLen)
  }

  /** description(): the shortened address, or the category (or "") when the address is
      blank. */
  function Description(place: PlaceResult): (r: string)
    ensures place.address.Some? && !IsBlank(place.address.value) ==> |r| <= MaxDescLength
    ensures (place.address.None? || IsBlank(place.address.value)) ==>
      r == (if place.category.Some? && !IsBlank(place.category.value) then place.category.value else "")
  {
    if place.address.None? || IsBlank(place.address.value) then
      if place.category.Some? && !IsBlank(place.category.value) then place.category.value else ""
    else FormatAddress(place.address, MaxDescLength)
  }
}
