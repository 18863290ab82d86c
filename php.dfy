/**
 * The pieces of PHP 8 run-time behaviour that the application's rules depend on:
 * truthiness and the `?: null` idiom, loose comparison between `int` and `null`,
 * `trim`, `str_replace`, the `preg_` calls the code makes, and decimal conversion
 * of integers in string concatenation. Strings are sequences of characters;
 * `mb_strlen` is the sequence length.
 */
module Php {
  import opened Wrappers

  // ---------------------------------------------------------------------------
  // Truthiness and `?: null`
  // ---------------------------------------------------------------------------

  /** PHP truthiness of a string: the empty string and "0" are false. */
  predicate Truthy(s: string) {
    s != "" && s != "0"
  }

  /** `$x ?: null` for a string that may already be null. */
  function OrNull(x: Option<string>): (r: Option<string>)
    ensures r.Some? <==> x.Some? && Truthy(x.value)
    ensures r.Some? ==> r == x
  {
    if x.Some? && Truthy(x.value) then x else None
  }

  /** `$x ?: null` for an integer: 0 becomes null. */
  function OrNullInt(x: Option<int>): (r: Option<int>)
    ensures r.Some? <==> x.Some? && x.value != 0
    ensures r.Some? ==> r == x
  {
    if x.Some? && x.value != 0 then x else None
  }

  /** `$x ?: null` for a float: 0.0 becomes null. */
  function OrNullReal(x: Option<real>): (r: Option<real>)
    ensures r.Some? <==> x.Some? && x.value != 0.0
    ensures r.Some? ==> r == x
  {
    if x.Some? && x.value != 0.0 then x else None
  }

  /** Truthiness of a nullable string (`!$x` is its negation). */
  predicate Present(x: Option<string>) {
    x.Some? && Truthy(x.value)
  }

  /** `if ($bad) $errors[] = $message;`: the one-message list a failed check appends. */
  function Flag(bad: bool, message: string): (r: seq<string>)
    ensures r == [] <==> !bad
    ensures bad ==> r == [message]
  {
    if bad then [message] else []
  }

  // ---------------------------------------------------------------------------
  // Loose comparison of nullable integers (PHP 8)
  // ---------------------------------------------------------------------------

  /** Boolean value of a nullable integer: null and 0 are false. */
  predicate IntBool(x: Option<int>) {
    x.Some? && x.value != 0
  }

  /**
   * `$a < $b` for nullable integers. Two integers compare numerically; when one
   * side is null both sides are converted to bool and false < true.
   */
  predicate LooseLess(a: Option<int>, b: Option<int>) {
    if a.Some? && b.Some? then a.value < b.value
    else !IntBool(a) && IntBool(b)
  }

  /** `$a <= $b`, the negation of `$b < $a`. */
  predicate LooseAtMost(a: Option<int>, b: Option<int>) {
    !LooseLess(b, a)
  }

  /** `$a != $b` for nullable integers (loose: null equals 0). */
  predicate LooseDiffers(a: Option<int>, b: Option<int>) {
    if a.Some? && b.Some? then a.value != b.value
    else IntBool(a) != IntBool(b)
  }

  // ---------------------------------------------------------------------------
  // Character classes
  // ---------------------------------------------------------------------------

  predicate IsDigit(c: char) {
    '0' <= c <= '9'
  }

  predicate AllDigits(s: string) {
    forall i :: 0 <= i < |s| ==> IsDigit(s[i])
  }

  /** PCRE `\s`: space, tab, line feed, vertical tab, form feed, carriage return. */
  predicate IsSpace(c: char) {
    c == ' ' || c == '\t' || c == '\n' || c == '\U{000B}' || c == '\U{000C}' || c == '\r'
  }

  /** The characters `trim` removes by default: " \t\n\r\0\x0B". */
  predicate IsTrimChar(c: char) {
    c == ' ' || c == '\t' || c == '\n' || c == '\r' || c == '\0' || c == '\U{000B}'
  }

  // ---------------------------------------------------------------------------
  // trim
  // ---------------------------------------------------------------------------

  function TrimLeft(s: string): (r: string)
    ensures |r| <= |s| && r == s[|s| - |r|..]
    ensures r == [] || !IsTrimChar(r[0])
    ensures forall i :: 0 <= i < |s| - |r| ==> IsTrimChar(s[i])
  {
    if s != [] && IsTrimChar(s[0]) then TrimLeft(s[1..]) else s
  }

  function TrimRight(s: string): (r: string)
    ensures |r| <= |s| && r == s[..|r|]
    ensures r == [] || !IsTrimChar(r[|r| - 1])
    ensures forall i :: |r| <= i < |s| ==> IsTrimChar(s[i])
  {
    if s != [] && IsTrimChar(s[|s| - 1]) then TrimRight(s[..|s| - 1]) else s
  }

  /** `trim($s)`. */
  function Trim(s: string): (r: string)
    ensures r == [] || (!IsTrimChar(r[0]) && !IsTrimChar(r[|r| - 1]))
  {
    TrimLeft(TrimRight(s))
  }

  /** A string that neither starts nor ends with a trim character is left unchanged. */
  lemma {:induction false} TrimKeeps(s: string)
    requires s != [] ==> !IsTrimChar(s[0]) && !IsTrimChar(s[|s| - 1])
    ensures Trim(s) == s
  {
  }

  // ---------------------------------------------------------------------------
  // str_replace
  // ---------------------------------------------------------------------------

  /** `str_replace($c, $rep, $s)` for a one-character search string. */
  function ReplaceChar(s: string, c: char, rep: string): (r: string)
    ensures c !in rep ==> c !in r
    ensures forall x :: x in r ==> x in rep || (x in s && x != c)
  {
    if s == [] then []
    else (if s[0] == c then rep else [s[0]]) + ReplaceChar(s[1..], c, rep)
  }

  /**
   * `str_replace($needle, '', $s)`: every occurrence found scanning left to right,
   * without overlap and without rescanning the result, is deleted.
   */
  function RemoveAll(s: string, needle: string): (r: string)
    requires needle != []
    ensures |r| <= |s|
    ensures forall x :: x in r ==> x in s
    decreases |s|
  {
    if |s| < |needle| then s
    else if s[..|needle|] == needle then RemoveAll(s[|needle|..], needle)
    else [s[0]] + RemoveAll(s[1..], needle)
  }

  /** A leading occurrence is deleted and the scan resumes right after it. */
  lemma RemoveAllPrefix(needle: string, t: string)
    requires needle != []
    ensures RemoveAll(needle + t, needle) == RemoveAll(t, needle)
  {
    assert (needle + t)[..|needle|] == needle;
    assert (needle + t)[|needle|..] == t;
  }

  /** A string lacking some character of the needle contains no occurrence and is kept. */
  lemma {:induction false} RemoveAllAbsent(s: string, needle: string, k: nat)
    requires needle != [] && k < |needle| && needle[k] !in s
    ensures RemoveAll(s, needle) == s
    decreases |s|
  {
    if |s| >= |needle| {
      assert s[k] == s[..|needle|][k];
      assert s[..|needle|] != needle;
      RemoveAllAbsent(s[1..], needle, k);
      assert s == [s[0]] + s[1..];
    }
  }

  // ---------------------------------------------------------------------------
  // preg_replace('`[^0-9]`', '', $s)
  // ---------------------------------------------------------------------------

  /** Keeps the decimal digits of `s`, in order. */
  function DigitsOf(s: string): (r: string)
    ensures AllDigits(r)
    ensures |r| <= |s|
    ensures AllDigits(s) ==> r == s
  {
    if s == [] then []
    else (if IsDigit(s[0]) then [s[0]] else []) + DigitsOf(s[1..])
  }

  // ---------------------------------------------------------------------------
  // PCRE `$`
  // ---------------------------------------------------------------------------

  /** The two subject strings `$` lets a pattern end on: all of `s`, or `s` minus one final "\n". */
  predicate AnchoredAtEnd(s: string, body: string -> bool) {
    body(s) || (|s| > 0 && s[|s| - 1] == '\n' && body(s[..|s| - 1]))
  }

  // ---------------------------------------------------------------------------
  // Integer to string (`.` concatenation of an int)
  // ---------------------------------------------------------------------------

  function DigitChar(d: nat): (c: char)
    requires d < 10
    ensures IsDigit(c)
  {
    ('0' as int + d) as char
  }

  function DigitValue(c: char): (d: nat)
    requires IsDigit(c)
    ensures d < 10
  {
    c as int - '0' as int
  }

  /** Decimal digits of a natural number, without leading zeros. */
  function NatToString(n: nat): (r: string)
    ensures r != [] && AllDigits(r)
    ensures n < 10 <==> |r| == 1
    decreases n
  {
    if n < 10 then [DigitChar(n)] else NatToString(n / 10) + [DigitChar(n % 10)]
  }

  /** The number a string of decimal digits denotes. */
  function DecimalValue(s: string): nat
    requires AllDigits(s)
  {
    if s == [] then 0 else DecimalValue(s[..|s| - 1]) * 10 + DigitValue(s[|s| - 1])
  }

  /** Reading back the decimal digits of n gives n. */
  lemma {:induction false} DecimalOfNatToString(n: nat)
    ensures DecimalValue(NatToString(n)) == n
    decreases n
  {
    var s := NatToString(n);
    if n >= 10 {
      DecimalOfNatToString(n / 10);
      assert s[..|s| - 1] == NatToString(n / 10);
    }
  }

  /** The longest prefix of s made of decimal digits. */
  function LeadingDigits(s: string): (r: string)
    ensures AllDigits(r) && |r| <= |s| && r == s[..|r|]
    ensures |r| < |s| ==> !IsDigit(s[|r|])
  {
    if s != [] && IsDigit(s[0]) then
      var rest := LeadingDigits(s[1..]);
      assert s[1..][..|rest|] == s[1..|rest| + 1];
      [s[0]] + rest
    else []
  }

  /**
   * `(int)$s` for a string that starts with a digit or with no number at all:
   * the value of its leading digits, 0 when there are none.
   */
  function IntCast(s: string): nat {
    DecimalValue(LeadingDigits(s))
  }

  /** `"" . $n` for an integer: decimal digits with a minus sign for negatives. */
  function IntToString(n: int): (r: string)
    ensures r != []
    ensures n >= 0 <==> AllDigits(r)
  {
    if n >= 0 then NatToString(n)
    else
      var r := "-" + NatToString(-n);
      assert !IsDigit(r[0]);
      r
  }

  /** `"" . $n` for a nullable integer: null becomes the empty string. */
  function NullableIntToString(n: Option<int>): (r: string)
    ensures r == [] <==> n.None?
  {
    if n.Some? then IntToString(n.value) else ""
  }
}
