/**
 * The C string routines the firmware relies on, stated over `seq<char>`:
 * NUL-terminated strings, `strncpy` followed by an explicit terminator, and the
 * `%d`, `%02x` and `%02X` conversions of `snprintf`/`sprintf`.
 */
module CText {
  import opened Base

  const NUL: char := '\0'

  /** The C string held by a character buffer: everything before its first NUL. */
  function CStr(buf: seq<char>): (s: string)
    ensures NUL !in s
    ensures |s| <= |buf| && s == buf[..|s|]
    ensures |s| < |buf| ==> buf[|s|] == NUL
  {
    if buf == [] || buf[0] == NUL then [] else [buf[0]] + CStr(buf[1..])
  }

  /** A buffer whose first NUL follows the string `p` reads back as `p`. */
  lemma {:induction false} CStrOfTerminated(p: string, rest: seq<char>)
    requires NUL !in p
    ensures CStr(p + [NUL] + rest) == p
  {
    if p != [] {
      assert (p + [NUL] + rest)[1..] == p[1..] + [NUL] + rest;
      CStrOfTerminated(p[1..], rest);
    }
  }

  /** A buffer without NUL reads back whole. */
  lemma {:induction false} CStrOfUnterminated(p: string)
    requires NUL !in p
    ensures CStr(p) == p
  {
    if p != [] {
      CStrOfUnterminated(p[1..]);
    }
  }

  /**
   * `strncpy(dest, src, n)`: at most `n` characters of the C string `src`; when
   * that string is shorter than `n`, the rest of the `n` bytes are NUL.
   */
  function Strncpy(src: seq<char>, n: nat): (buf: seq<char>)
  {
    var s := CStr(src);
    if |s| >= n then s[..n] else s + seq(n - |s|, _ => NUL)
  }

  /**
   * The pattern `strncpy(field, src, sizeof(field)); field[sizeof(field) - 1] = '\0';`
   * on a field of `cap` bytes, read back as a C string.
   */
  function BoundedCopy(src: seq<char>, cap: nat): string
    requires cap > 0
  {
    CStr(Strncpy(src, cap)[cap - 1 := NUL])
  }

  /** The bounded copy keeps exactly the first `min(len, cap - 1)` characters of the source. */
  lemma BoundedCopyIsPrefix(src: seq<char>, cap: nat)
    requires cap > 0
    ensures var s := CStr(src);
      BoundedCopy(src, cap) == s[..Min(|s|, cap - 1)]
    ensures |BoundedCopy(src, cap)| <= cap - 1
  {
    var s := CStr(src);
    var buf := Strncpy(src, cap)[cap - 1 := NUL];
    var k := Min(|s|, cap - 1);
    assert buf == s[..k] + [NUL] + buf[k + 1..];
    CStrOfTerminated(s[..k], buf[k + 1..]);
  }

  /** One hexadecimal digit, as `%x` (lower case) or `%X` (upper case) prints it. */
  function HexDigit(d: nat, upper: bool): char
    requires d < 16
  {
    if d < 10 then '0' + d as char
    else if upper then 'A' + (d - 10) as char
    else 'a' + (d - 10) as char
  }

  /** `%02X` (upper) or `%02x` (lower) applied to one byte. */
  function Hex2(b: Byte, upper: bool): (s: string)
    ensures |s| == 2 && NUL !in s
  {
    [HexDigit(b / 16, upper), HexDigit(b % 16, upper)]
  }

  /** Distinct bytes print as distinct two-digit hexadecimal strings. */
  lemma Hex2Injective(a: Byte, b: Byte, upper: bool)
    requires Hex2(a, upper) == Hex2(b, upper)
    ensures a == b
  {
    assert HexDigit(a / 16, upper) == HexDigit(b / 16, upper);
    assert HexDigit(a % 16, upper) == HexDigit(b % 16, upper);
    HexDigitInjective(a / 16, b / 16, upper);
    HexDigitInjective(a % 16, b % 16, upper);
  }

  lemma HexDigitInjective(d: nat, e: nat, upper: bool)
    requires d < 16 && e < 16 && HexDigit(d, upper) == HexDigit(e, upper)
    ensures d == e
  {
  }

  /** One decimal digit. */
  function DigitChar(d: nat): char
    requires d < 10
  {
    '0' + d as char
  }

  predicate IsDigit(c: char)
  {
    '0' <= c <= '9'
  }

  /** The number a string of decimal digits spells, most significant digit first. */
  function DigitsValue(s: string): nat
    requires forall i :: 0 <= i < |s| ==> IsDigit(s[i])
  {
    if s == [] then 0
    else
      assert IsDigit(s[|s| - 1]);
      10 * DigitsValue(s[..|s| - 1]) + (s[|s| - 1] as int - '0' as int)
  }

  /** `%d` applied to a non-negative number: digits only, no leading zero. */
  function Decimal(n: nat): (s: string)
    ensures 1 <= |s| && NUL !in s
    ensures forall i :: 0 <= i < |s| ==> IsDigit(s[i])
    ensures s[0] == '0' <==> n == 0
  {
    if n < 10 then [DigitChar(n)] else Decimal(n / 10) + [DigitChar(n % 10)]
  }

  /** The digits `Decimal` prints spell the number back. */
  lemma {:induction false} DecimalValue(n: nat)
    ensures DigitsValue(Decimal(n)) == n
  {
    var s := Decimal(n);
    if n >= 10 {
      assert s[..|s| - 1] == Decimal(n / 10);
      DecimalValue(n / 10);
    }
  }

  /**
   * `snprintf(buf, size, ...)` whose formatted text is `s`: the text is cut to
   * `size - 1` characters so that the terminator fits.
   */
  function Snprintf(s: string, size: nat): string
    requires size > 0
  {
    s[..Min(|s|, size - 1)]
  }
}
