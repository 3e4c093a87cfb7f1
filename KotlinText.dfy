/**
 * The Kotlin string operations the screens and view models rely on:
 * `Char.isDigit`, `String.isBlank`, `String.lowercase`, `Int.toString` and
 * `String.toIntOrNull`, restricted to the characters described in each.
 */
module KotlinText {
  import opened Wrappers
  import opened Model

  const INT32_MAX: int := 0x7FFF_FFFF
  const INT32_MIN: int := -0x8000_0000

  /** `Char.isDigit` on the ASCII digits '0'..'9'. */
  predicate IsDigit(c: char) {
    '0' <= c <= '9'
  }

  /** `s.all { it.isDigit() }` */
  predicate AllDigits(s: string) {
    forall i :: 0 <= i < |s| ==> IsDigit(s[i])
  }

  /**
   * `Char.isWhitespace` on the JVM: the controls U+0009..U+000D and
   * U+001C..U+001F together with the space, line and paragraph separators.
   */
  predicate IsWhitespace(c: char) {
    var k := c as int;
    (0x09 <= k <= 0x0D) || (0x1C <= k <= 0x1F) || k == 0x20 || k == 0xA0 ||
    k == 0x1680 || (0x2000 <= k <= 0x200A) || k == 0x2028 || k == 0x2029 ||
    k == 0x202F || k == 0x205F || k == 0x3000
  }

  /** `String.isBlank`: empty, or whitespace only. */
  predicate IsBlank(s: string) {
    forall i :: 0 <= i < |s| ==> IsWhitespace(s[i])
  }

  /**
   * The empty text and text of spaces, tabs, line breaks or no-break spaces
   * is blank; one visible character anywhere makes it not blank.
   */
  lemma BlankExamples()
    ensures IsBlank("") && IsBlank(" \t\n") && IsBlank("\U{00A0}\U{3000}")
    ensures !IsBlank("admin") && !IsBlank("  x  ")
  {
    assert !IsWhitespace("admin"[0]) && !IsWhitespace("  x  "[2]);
  }

  /** `Char.lowercaseChar` on the ASCII letters; every other character is kept. */
  function LowerChar(c: char): (r: char)
    ensures 'A' <= c <= 'Z' ==> 'a' <= r <= 'z' && r as int == c as int + 32
    ensures !('A' <= c <= 'Z') ==> r == c
  {
    if 'A' <= c <= 'Z' then (c as int + 32) as char else c
  }

  /** `String.lowercase`, character by character. */
  function Lowercase(s: string): (r: string)
    ensures |r| == |s|
    ensures forall i :: 0 <= i < |s| ==> r[i] == LowerChar(s[i])
  {
    seq(|s|, i requires 0 <= i < |s| => LowerChar(s[i]))
  }

  /** Lowering twice is lowering once. */
  lemma LowercaseIdempotent(s: string)
    ensures Lowercase(Lowercase(s)) == Lowercase(s)
  {
  }

  function DigitChar(d: nat): (c: char)
    requires d < 10
    ensures IsDigit(c) && c as int - '0' as int == d
  {
    ('0' as int + d) as char
  }

  /** The number a string of decimal digits denotes, most significant first. */
  function DigitsValue(s: string): (v: nat)
    requires AllDigits(s)
  {
    if s == [] then 0
    else DigitsValue(s[..|s| - 1]) * 10 + (s[|s| - 1] as int - '0' as int)
  }

  /** Decimal notation of a natural number, without leading zeros. */
  function NatToString(n: nat): (s: string)
    ensures |s| >= 1 && AllDigits(s)
    ensures DigitsValue(s) == n
    ensures s[0] == '0' ==> n == 0
  {
    if n < 10 then [DigitChar(n)]
    else
      var prefix := NatToString(n / 10);
      var s := prefix + [DigitChar(n % 10)];
      assert s[..|s| - 1] == prefix;
      s
  }

  /** `Int.toString()`: a minus sign before the magnitude of a negative number. */
  function IntToString(n: Int32): (s: string)
    ensures |s| >= 1
    ensures n >= 0 <==> AllDigits(s)
    ensures n < 0 ==> s[0] == '-' && AllDigits(s[1..]) && DigitsValue(s[1..]) == -(n as int)
    ensures n >= 0 ==> DigitsValue(s) == n
  {
    if n < 0 then
      var s := "-" + NatToString(-(n as int));
      assert s[1..] == NatToString(-(n as int));
      assert !IsDigit(s[0]);
      s
    else NatToString(n)
  }

  /** `v` read with an optional sign, if the result fits in an `Int`. */
  function Signed(negative: bool, v: nat): (r: Option<Int32>)
    ensures r.Some? <==> (if negative then v <= -INT32_MIN else v <= INT32_MAX)
    ensures r.Some? ==> r.value == (if negative then -(v as int) else v as int)
  {
    var x: int := if negative then -(v as int) else v;
    if INT32_MIN <= x <= INT32_MAX then Some(x) else None
  }

  /**
   * `String.toIntOrNull()` on ASCII digits: an optional leading '+' or '-'
   * followed by at least one digit and nothing else, whose value fits in an
   * `Int`; `null` (here `None`) otherwise.
   */
  function ToIntOrNull(s: string): (r: Option<Int32>)
    ensures s == "" ==> r.None?
    ensures AllDigits(s) && s != "" ==>
      (r.Some? <==> DigitsValue(s) <= INT32_MAX) && (r.Some? ==> r.value == DigitsValue(s))
    ensures r.Some? ==> s != "" && (AllDigits(s) || ((s[0] == '-' || s[0] == '+') && |s| >= 2 && AllDigits(s[1..])))
    ensures |s| >= 2 && s[0] == '+' && AllDigits(s[1..]) ==>
      (r.Some? <==> DigitsValue(s[1..]) <= INT32_MAX) && (r.Some? ==> r.value == DigitsValue(s[1..]))
    ensures |s| >= 2 && s[0] == '-' && AllDigits(s[1..]) ==>
      (r.Some? <==> DigitsValue(s[1..]) <= -INT32_MIN) && (r.Some? ==> r.value == -(DigitsValue(s[1..]) as int))
  {
    if s == "" then None
    else if s[0] == '-' || s[0] == '+' then
      if |s| == 1 || !AllDigits(s[1..]) then None
      else Signed(s[0] == '-', DigitsValue(s[1..]))
    else if AllDigits(s) then Signed(false, DigitsValue(s))
    else None
  }

  /** Reading back the text `toString` produced gives the same `Int`. */
  lemma ToIntOrNullOfToString(n: Int32)
    ensures ToIntOrNull(IntToString(n)) == Some(n)
  {
    var s := IntToString(n);
    if n < 0 {
      assert s[0] == '-' && |s| >= 2;
    } else {
      assert IsDigit(s[0]);
    }
  }
}
