/** The few facts about the Java platform that the LISP model relies on:
    nullable references, the exceptions the core raises, Java's fixed-width
    integer types, and the JDK text functions the core calls
    (`String.valueOf(int)`, `String.hashCode()`, `Objects.hash`). */
module JavaLang {

  /** A Java reference that may be null. */
  datatype Option<+T> = None | Some(value: T)

  /** The outcome of a Java call: a value, or the exception it throws. */
  datatype Result<+T, +E> = Success(value: T) | Failure(error: E)

  datatype JavaException =
    | NullPointerException(message: string)
    | IllegalArgumentException(message: string)

  type Int8 = x: int | -0x80 <= x < 0x80
  type Int16 = x: int | -0x8000 <= x < 0x8000
  type Int32 = x: int | -0x8000_0000 <= x < 0x8000_0000
  type Int64 = x: int | -0x8000_0000_0000_0000 <= x < 0x8000_0000_0000_0000

  /** Java `int` arithmetic: the result is taken modulo 2^32, in two's complement. */
  function WrapInt32(x: int): (r: Int32)
    ensures -0x8000_0000 <= x < 0x8000_0000 ==> r == x
    ensures (x - r) % 0x1_0000_0000 == 0
    ensures r % 0x1_0000_0000 == x % 0x1_0000_0000
  {
    (x + 0x8000_0000) % 0x1_0000_0000 - 0x8000_0000
  }

  // ---------------------------------------------------------------------
  // Decimal text: String.valueOf(int) and its inverse
  // ---------------------------------------------------------------------

  predicate IsDigit(c: char) {
    '0' <= c <= '9'
  }

  predicate AllDigits(s: string) {
    forall i :: 0 <= i < |s| ==> IsDigit(s[i])
  }

  function DigitChar(d: nat): (c: char)
    requires d < 10
    ensures IsDigit(c) && DigitValue(c) == d
  {
    (d + '0' as int) as char
  }

  function DigitValue(c: char): (d: nat)
    requires IsDigit(c)
    ensures d < 10
  {
    c as int - '0' as int
  }

  /** The shortest decimal rendering of a natural number: digits only, and no
      leading zero except for zero itself. */
  function NatToDecimal(n: nat): (s: string)
    ensures |s| > 0 && AllDigits(s)
    ensures s[0] == '0' <==> n == 0
    ensures n == 0 ==> s == "0"
    decreases n
  {
    if n < 10 then [DigitChar(n)] else NatToDecimal(n / 10) + [DigitChar(n % 10)]
  }

  /** The value of a string of decimal digits, most significant first. */
  function ParseDigits(s: string): nat
    requires AllDigits(s)
    decreases |s|
  {
    if s == [] then 0 else ParseDigits(s[..|s| - 1]) * 10 + DigitValue(s[|s| - 1])
  }

  lemma {:induction false} ParseNatToDecimal(n: nat)
    ensures ParseDigits(NatToDecimal(n)) == n
    decreases n
  {
    if n >= 10 {
      var prefix := NatToDecimal(n / 10);
      var s := prefix + [DigitChar(n % 10)];
      assert s[..|s| - 1] == prefix;
      ParseNatToDecimal(n / 10);
    }
  }

  /** `String.valueOf(int)`: an optional minus sign followed by the decimal
      digits of the magnitude. */
  function StringValueOf(n: Int32): (s: string)
    ensures |s| > 0
    ensures s[0] == '-' <==> n < 0
    ensures n < 0 ==> |s| > 1 && AllDigits(s[1..]) && s[1] != '0'
    ensures n >= 0 ==> AllDigits(s)
    ensures n == 0 ==> s == "0"
    ensures n > 0 ==> s[0] != '0'
  {
    if n < 0 then "-" + NatToDecimal(-(n as int)) else NatToDecimal(n)
  }

  /** Reads back a rendering of the form `StringValueOf` produces; None for
      any other text. */
  function ParseInt(s: string): Option<int> {
    if |s| > 1 && s[0] == '-' && AllDigits(s[1..]) then Some(-(ParseDigits(s[1..]) as int))
    else if |s| > 0 && AllDigits(s) then Some(ParseDigits(s))
    else None
  }

  /** `String.valueOf(int)` loses nothing: the number is read back exactly. */
  lemma {:induction false} ParseStringValueOf(n: Int32)
    ensures ParseInt(StringValueOf(n)) == Some(n)
  {
    var s := StringValueOf(n);
    if n < 0 {
      assert s[1..] == NatToDecimal(-(n as int));
      ParseNatToDecimal(-(n as int));
    } else {
      ParseNatToDecimal(n);
    }
  }

  /** Distinct numbers have distinct renderings. */
  lemma StringValueOfInjective(m: Int32, n: Int32)
    ensures StringValueOf(m) == StringValueOf(n) <==> m == n
  {
    ParseStringValueOf(m);
    ParseStringValueOf(n);
  }

  // ---------------------------------------------------------------------
  // Hash codes
  // ---------------------------------------------------------------------

  /** 31 raised to the power n. */
  function Pow31(n: nat): nat {
    if n == 0 then 1 else 31 * Pow31(n - 1)
  }

  /** The value `String.hashCode()` is documented to have, in unbounded
      integers: s[0]*31^(n-1) + s[1]*31^(n-2) + ... + s[n-1]. */
  function DocumentedStringHash(s: string): int
    decreases |s|
  {
    if s == [] then 0 else (s[0] as int) * Pow31(|s| - 1) + DocumentedStringHash(s[1..])
  }

  /** Appending a character multiplies the documented hash by 31 and adds
      the character. */
  lemma {:induction false} DocumentedHashAppend(s: string, c: char)
    ensures DocumentedStringHash(s + [c]) == 31 * DocumentedStringHash(s) + c as int
    decreases |s|
  {
    if s != [] {
      var t := s + [c];
      assert t[0] == s[0] && t[1..] == s[1..] + [c] && |t| - 1 == |s|;
      DocumentedHashAppend(s[1..], c);
      assert (s[0] as int) * Pow31(|s|) == 31 * ((s[0] as int) * Pow31(|s| - 1));
    }
  }

  /** One step of the hash loop keeps two values that agree modulo 2^32 in
      agreement. */
  lemma HashStepKeepsResidue(a: int, b: int, c: int)
    requires a % 0x1_0000_0000 == b % 0x1_0000_0000
    ensures (31 * a + c) % 0x1_0000_0000 == (31 * b + c) % 0x1_0000_0000
  {
    var m := 0x1_0000_0000;
    var qa, qb, r := a / m, b / m, a % m;
    assert a == m * qa + r && b == m * qb + r;
    assert 31 * a + c == m * (31 * qa) + (31 * r + c);
    assert 31 * b + c == m * (31 * qb) + (31 * r + c);
  }

  /** Adding the same number to two values that agree modulo 2^32 keeps
      them in agreement. */
  lemma AddKeepsResidue(a: int, b: int, c: int)
    requires a % 0x1_0000_0000 == b % 0x1_0000_0000
    ensures (c + a) % 0x1_0000_0000 == (c + b) % 0x1_0000_0000
  {
    var m := 0x1_0000_0000;
    assert a == m * (a / m) + a % m && b == m * (b / m) + a % m;
  }

  /** `String.hashCode()`: h = 31 * h + c over the characters, in `int`
      arithmetic, starting from 0. The result is the documented polynomial
      taken modulo 2^32. */
  function StringHashCode(s: string): (h: Int32)
    ensures s == [] ==> h == 0
    ensures h % 0x1_0000_0000 == DocumentedStringHash(s) % 0x1_0000_0000
    decreases |s|
  {
    if s == [] then 0
    else
      var prefix, last := s[..|s| - 1], s[|s| - 1];
      var prev := StringHashCode(prefix);
      assert s == prefix + [last];
      DocumentedHashAppend(prefix, last);
      HashStepKeepsResidue(prev, DocumentedStringHash(prefix), last as int);
      WrapInt32(31 * prev + last as int)
  }

  /** `Objects.hash(x)` for a single string argument: 31 + the string's hash,
      where a null string hashes to 0, in `int` arithmetic. */
  function ObjectsHash(x: Option<string>): (h: Int32)
    ensures x == None ==> h == 31
    ensures x == Some("") ==> h == 31
    ensures x.Some? ==> h % 0x1_0000_0000 == (31 + DocumentedStringHash(x.value)) % 0x1_0000_0000
  {
    var stringHash := if x.None? then 0 else StringHashCode(x.value);
    if x.Some? then
      AddKeepsResidue(stringHash, DocumentedStringHash(x.value), 31);
      WrapInt32(31 + stringHash)
    else
      WrapInt32(31 + stringHash)
  }
}
