/** The small part of java.lang.String and java.lang.Character that the chat client's
    helpers rely on, stated over Dafny strings, whose chars are Unicode scalar values. */
module JavaString {
  import opened Wrappers

  const INT_MIN: int := -0x8000_0000
  const INT_MAX: int := 0x7fff_ffff

  /** Reduces an unbounded integer to Java's 32-bit two's-complement `int`. */
  function Wrap32(n: int): (r: int)
    ensures INT_MIN <= r <= INT_MAX
    ensures (r - n) % 0x1_0000_0000 == 0
  {
    (n - INT_MIN) % 0x1_0000_0000 + INT_MIN
  }

  /** Java's `/` on ints with a positive divisor: the quotient rounded toward zero. */
  function DivTrunc(a: int, b: int): (r: int)
    requires b > 0
    ensures a >= 0 ==> r == a / b
    ensures a < 0 ==> r == -((-a) / b) && r <= 0
  {
    if a >= 0 then a / b else -((-a) / b)
  }

  /** Character.isWhitespace: Unicode space separators other than the no-break spaces,
      plus the ASCII controls TAB, LF, VT, FF, CR and FS..US. */
  predicate IsWhitespace(c: char) {
    c == ' ' || c == '\t' || c == '\n' || c == '\U{000B}' || c == '\U{000C}' || c == '\r'
    || ('\U{001C}' <= c <= '\U{001F}')
    || c == '\U{1680}' || ('\U{2000}' <= c <= '\U{2006}') || ('\U{2008}' <= c <= '\U{200A}')
    || c == '\U{2028}' || c == '\U{2029}' || c == '\U{205F}' || c == '\U{3000}'
  }

  /** String.isBlank: empty or only whitespace. */
  predicate IsBlank(s: string) {
    forall i | 0 <= i < |s| :: IsWhitespace(s[i])
  }

  /** The characters the regular expression `\s` matches. */
  predicate IsRegexSpace(c: char) {
    c == ' ' || c == '\t' || c == '\n' || c == '\U{000B}' || c == '\U{000C}' || c == '\r'
  }

  /** The characters at or above the space character, in order (the "printable" filter
      the input fields apply). */
  function Printable(s: string): (r: string)
    ensures |r| <= |s|
    ensures forall i | 0 <= i < |r| :: r[i] >= ' '
  {
    if |s| == 0 then ""
    else (if s[0] >= ' ' then [s[0]] else "") + Printable(s[1..])
  }

  /** Extending a prefix by one character extends its printable part by that character
      when it is printable. */
  lemma PrintableStep(s: string, i: nat)
    requires i < |s|
    ensures Printable(s[..i + 1]) == Printable(s[..i]) + (if s[i] >= ' ' then [s[i]] else "")
  {
    assert s[..i + 1] == s[..i] + [s[i]];
    PrintableConcat(s[..i], [s[i]]);
  }

  lemma {:induction false} PrintableConcat(a: string, b: string)
    ensures Printable(a + b) == Printable(a) + Printable(b)
  {
    if |a| == 0 {
      assert a + b == b;
    } else {
      var head := if a[0] >= ' ' then [a[0]] else "";
      assert (a + b)[0] == a[0];
      assert (a + b)[1..] == a[1..] + b;
      PrintableConcat(a[1..], b);
      assert Printable(a + b) == head + Printable(a[1..] + b);
    }
  }

  /** Characters that String.trim removes: every code point up to U+0020. */
  predicate IsTrimmable(c: char) {
    c <= ' '
  }

  function TrimStart(s: string): (r: string)
    ensures |r| <= |s|
    ensures r == [] || !IsTrimmable(r[0])
    ensures forall i | 0 <= i < |s| - |r| :: IsTrimmable(s[i])
  {
    if |s| > 0 && IsTrimmable(s[0]) then TrimStart(s[1..]) else s
  }

  /** What TrimStart leaves is the tail of its argument. */
  lemma {:induction false} TrimStartSuffix(s: string)
    ensures TrimStart(s) == s[|s| - |TrimStart(s)|..]
    decreases |s|
  {
    if |s| > 0 && IsTrimmable(s[0]) {
      TrimStartSuffix(s[1..]);
      assert s[1..][|s| - 1 - |TrimStart(s[1..])|..] == s[|s| - |TrimStart(s)|..];
    }
  }

  function TrimEnd(s: string): (r: string)
    ensures |r| <= |s| && r == s[..|r|]
    ensures r == [] || !IsTrimmable(r[|r| - 1])
    ensures forall i | |r| <= i < |s| :: IsTrimmable(s[i])
  {
    if |s| > 0 && IsTrimmable(s[|s| - 1]) then TrimEnd(s[..|s| - 1]) else s
  }

  /** String.trim */
  function Trim(s: string): (r: string)
    ensures |r| <= |s|
    ensures r == [] || (!IsTrimmable(r[0]) && !IsTrimmable(r[|r| - 1]))
  {
    TrimEnd(TrimStart(s))
  }

  /** String.stripLeading: removes leading Character.isWhitespace characters. */
  function StripLeading(s: string): (r: string)
    ensures |r| <= |s| && r == s[|s| - |r|..]
    ensures r == [] || !IsWhitespace(r[0])
  {
    if |s| > 0 && IsWhitespace(s[0]) then StripLeading(s[1..]) else s
  }

  /** Case mapping on ASCII letters; other characters are left as they are. */
  function LowerChar(c: char): char {
    if 'A' <= c <= 'Z' then (c as int + 32) as char else c
  }

  /** String.toLowerCase, on ASCII letters. */
  function ToLower(s: string): (r: string)
    ensures |r| == |s| && forall i | 0 <= i < |s| :: r[i] == LowerChar(s[i])
  {
    seq(|s|, i requires 0 <= i < |s| => LowerChar(s[i]))
  }

  /** String.equalsIgnoreCase, on ASCII letters. */
  predicate EqualsIgnoreCase(a: string, b: string) {
    ToLower(a) == ToLower(b)
  }

  predicate StartsWith(s: string, prefix: string) {
    |prefix| <= |s| && s[..|prefix|] == prefix
  }

  predicate EndsWith(s: string, suffix: string) {
    |suffix| <= |s| && s[|s| - |suffix|..] == suffix
  }

  /** `sub` occurs in `s` starting at position `i`. */
  predicate OccursAt(s: string, sub: string, i: int) {
    0 <= i && i + |sub| <= |s| && s[i..i + |sub|] == sub
  }

  /** String.contains */
  predicate Contains(s: string, sub: string) {
    exists i | 0 <= i <= |s| - |sub| :: OccursAt(s, sub, i)
  }

  /** String.indexOf(char): the first position of `c`, or -1. */
  function IndexOf(s: string, c: char): (r: int)
    ensures -1 <= r < |s|
    ensures r == -1 <==> c !in s
    ensures r >= 0 ==> s[r] == c && c !in s[..r]
  {
    if |s| == 0 then -1
    else if s[0] == c then 0
    else
      var k := IndexOf(s[1..], c);
      if k == -1 then -1
      else
        assert s[..k + 1] == [s[0]] + s[1..][..k];
        k + 1
  }

  /** " ".repeat(n) and friends. */
  function Repeat(c: char, n: nat): (r: string)
    ensures |r| == n && forall i | 0 <= i < n :: r[i] == c
  {
    seq(n, _ => c)
  }

  /** String.join(sep, parts) */
  function Join(parts: seq<string>, sep: string): string {
    if |parts| == 0 then ""
    else if |parts| == 1 then parts[0]
    else parts[0] + sep + Join(parts[1..], sep)
  }

  function DigitChar(d: nat): char
    requires d < 10
  {
    ('0' as int + d) as char
  }

  /** String.valueOf(int) / the %d conversion: decimal digits with a leading '-' when negative. */
  function IntToString(n: int): (r: string)
    ensures |r| > 0
  {
    if n < 0 then "-" + NatToString(-n) else NatToString(n)
  }

  function NatToString(n: nat): (r: string)
    ensures |r| > 0
    decreases n
  {
    if n < 10 then [DigitChar(n)] else NatToString(n / 10) + [DigitChar(n % 10)]
  }

  predicate IsDigit(c: char) {
    '0' <= c <= '9'
  }

  /** The value of a run of ASCII digits. */
  function DigitsValue(s: string): (r: nat)
    requires forall i | 0 <= i < |s| :: IsDigit(s[i])
  {
    if |s| == 0 then 0
    else
      assert IsDigit(s[|s| - 1]);
      DigitsValue(s[..|s| - 1]) * 10 + (s[|s| - 1] as int - '0' as int)
  }

  /** Integer.parseInt: an optional sign followed by at least one digit, within the range of
      `int`; None stands for NumberFormatException. */
  function ParseInt(s: string): (r: Option<int>)
    ensures r.Some? ==> INT_MIN <= r.value <= INT_MAX
  {
    var negative := |s| > 0 && s[0] == '-';
    var signed := |s| > 0 && (s[0] == '-' || s[0] == '+');
    var digits := if signed then s[1..] else s;
    if |digits| == 0 || exists i | 0 <= i < |digits| :: !IsDigit(digits[i]) then None
    else
      var mag: int := DigitsValue(digits);
      var v := if negative then -mag else mag;
      if INT_MIN <= v <= INT_MAX then Some(v) else None
  }

  /** The digits String.valueOf writes are read back by DigitsValue. */
  lemma {:induction false} NatToStringDigits(n: nat)
    ensures forall i | 0 <= i < |NatToString(n)| :: IsDigit(NatToString(n)[i])
    ensures DigitsValue(NatToString(n)) == n
    decreases n
  {
    if n >= 10 {
      NatToStringDigits(n / 10);
      var s := NatToString(n);
      assert s[..|s| - 1] == NatToString(n / 10);
    }
  }

  /** A string without characters up to U+0020 is its own trim. */
  lemma TrimNoOp(s: string)
    requires forall i | 0 <= i < |s| :: !IsTrimmable(s[i])
    ensures Trim(s) == s
  {
    assert TrimStart(s) == s;
  }

  /** String.valueOf(int) writes no characters that trim would remove. */
  lemma IntToStringTrimmed(n: int)
    ensures Trim(IntToString(n)) == IntToString(n)
  {
    var m: nat := if n < 0 then -n else n;
    NatToStringDigits(m);
    var s := IntToString(n);
    var digits := NatToString(m);
    forall i | 0 <= i < |s|
      ensures !IsTrimmable(s[i])
    {
      if n < 0 && i > 0 {
        assert s[i] == digits[i - 1];
      }
    }
    TrimNoOp(s);
  }

  /** Integer.parseInt reads back what String.valueOf(int) wrote, even after a trim. */
  lemma ParseIntRoundTrip(n: int)
    requires INT_MIN <= n <= INT_MAX
    ensures Trim(IntToString(n)) == IntToString(n)
    ensures ParseInt(IntToString(n)) == Some(n)
  {
    IntToStringTrimmed(n);
    var m: nat := if n < 0 then -n else n;
    NatToStringDigits(m);
    var digits := NatToString(m);
    var s := IntToString(n);
    if n < 0 {
      assert s == "-" + digits;
      assert s[1..] == digits;
    } else {
      assert s == digits;
      assert IsDigit(s[0]);
    }
    assert !exists i | 0 <= i < |digits| :: !IsDigit(digits[i]);
  }

  /** Trim removes exactly a trailing run of trimmable characters from text whose ends are
      not trimmable. */
  lemma {:induction false} TrimDropsTail(s: string, tail: string)
    requires |s| > 0 && !IsTrimmable(s[0]) && !IsTrimmable(s[|s| - 1])
    requires forall i | 0 <= i < |tail| :: IsTrimmable(tail[i])
    ensures Trim(s + tail) == s
    decreases |tail|
  {
    if |tail| == 0 {
      assert s + tail == s;
      assert TrimStart(s) == s;
      assert TrimEnd(s) == s;
    } else {
      var shorter := tail[..|tail| - 1];
      TrimDropsTail(s, shorter);
      var t := s + tail;
      assert TrimStart(t) == t;
      assert t[|t| - 1] == tail[|tail| - 1];
      assert t[..|t| - 1] == s + shorter;
      assert TrimEnd(t) == TrimEnd(s + shorter);
      assert TrimStart(s + shorter) == s + shorter;
    }
  }

  /** Trim only removes characters: what is left occurs in the original. */
  lemma TrimChars(s: string)
    ensures forall i | 0 <= i < |Trim(s)| :: Trim(s)[i] in s
  {
    var r := Trim(s);
    var t := TrimStart(s);
    var k := |s| - |t|;
    TrimStartSuffix(s);
    assert r == t[..|r|] && t == s[k..];
    forall i | 0 <= i < |r|
      ensures r[i] in s
    {
      assert r[i] == s[k..k + |r|][i] == s[k + i];
    }
  }

  /** A concatenation starts with its first part and ends with its second. */
  lemma ConcatEnds(a: string, b: string)
    ensures StartsWith(a + b, a) && EndsWith(a + b, b)
  {
    assert (a + b)[..|a|] == a;
    assert (a + b)[|a|..] == b;
  }

  /** Text that starts and ends with a visible character, followed by newlines, trims to
      itself; stated on three parts so that callers need only know the outer ones. */
  lemma TrimFramed(head: string, middle: string, last: string, tail: string)
    requires |head| > 0 && !IsTrimmable(head[0])
    requires |last| > 0 && !IsTrimmable(last[|last| - 1])
    requires forall i | 0 <= i < |tail| :: IsTrimmable(tail[i])
    ensures Trim(head + middle + last + tail) == head + middle + last
  {
    var kept := head + middle + last;
    assert kept[0] == head[0];
    assert kept[|kept| - 1] == last[|last| - 1];
    TrimDropsTail(kept, tail);
  }

  /** The character right after the first part of a three-part concatenation. */
  lemma IndexAfter(a: string, b: string, c: string)
    requires |b| > 0
    ensures |a + b + c| > |a| && (a + b + c)[|a|] == b[0]
  {
  }
}
