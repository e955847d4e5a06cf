/** The small part of java.lang the settings code relies on: Java's 32- and
    64-bit integers, Math.min and Math.max, Integer.toString and
    Integer.parseInt (ASCII signed decimal, rejected outside the int range). */
module JavaLang {

  const INT_MIN: int := -0x8000_0000
  const INT_MAX: int := 0x7fff_ffff

  /** Java's `int`. */
  newtype int32 = x: int | -0x8000_0000 <= x < 0x8000_0000

  /** Java's `long`. */
  newtype int64 = x: int | -0x8000_0000_0000_0000 <= x < 0x8000_0000_0000_0000

  datatype Option<+T> = None | Some(value: T)

  /** The Java `int` whose 32-bit two's-complement pattern is `u`, as a hex
      literal such as 0xff000000 denotes in Java. */
  function Argb(u: nat): (r: int32)
    requires u < 0x1_0000_0000
    ensures (r as int) % 0x1_0000_0000 == u
  {
    if u < 0x8000_0000 then u as int32 else (u - 0x1_0000_0000) as int32
  }

  /** Math.min(int, int) */
  function Min(a: int32, b: int32): (r: int32)
    ensures r <= a && r <= b
    ensures r == a || r == b
  {
    if a <= b then a else b
  }

  /** Math.max(int, int) */
  function Max(a: int32, b: int32): (r: int32)
    ensures r >= a && r >= b
    ensures r == a || r == b
  {
    if a >= b then a else b
  }

  predicate IsDigit(c: char) {
    '0' <= c <= '9'
  }

  predicate AllDigits(s: string) {
    forall i :: 0 <= i < |s| ==> IsDigit(s[i])
  }

  function DigitValue(c: char): (d: nat)
    requires IsDigit(c)
    ensures d < 10
  {
    c as int - '0' as int
  }

  function DigitChar(d: nat): (c: char)
    requires d < 10
    ensures IsDigit(c) && DigitValue(c) == d
  {
    ('0' as int + d) as char
  }

  /** The value of a string of decimal digits, most significant first. */
  function DigitsValue(s: string): nat
    requires AllDigits(s)
  {
    if s == [] then 0 else 10 * DigitsValue(s[..|s| - 1]) + DigitValue(s[|s| - 1])
  }

  /** Integer.parseInt(s): an optional '+' or '-' sign followed by at least
      one decimal digit, whose value lies in the `int` range; anything else
      is the NumberFormatException case, None. */
  function ParseInt(s: string): (r: Option<int32>)
    ensures r.Some? ==> s != [] && (r.value < 0 ==> s[0] == '-')
  {
    if s == [] then None
    else
      var digits := if s[0] == '-' || s[0] == '+' then s[1..] else s;
      if digits == [] || !AllDigits(digits) then None
      else
        var magnitude: int := DigitsValue(digits);
        var v := if s[0] == '-' then -magnitude else magnitude;
        if INT_MIN <= v <= INT_MAX then Some(v as int32) else None
  }

  /** The shortest decimal representation of `n`, without leading zeros. */
  function NatToString(n: nat): (s: string)
    ensures s != [] && AllDigits(s)
    ensures |s| > 1 ==> s[0] != '0'
  {
    if n < 10 then [DigitChar(n)] else NatToString(n / 10) + [DigitChar(n % 10)]
  }

  /** Integer.toString(int) */
  function IntToString(n: int32): (s: string)
    ensures s != []
  {
    if n < 0 then "-" + NatToString(-(n as int)) else NatToString(n as int)
  }

  lemma {:induction false} NatToStringValue(n: nat)
    ensures DigitsValue(NatToString(n)) == n
  {
    if n >= 10 {
      var s := NatToString(n);
      assert s[..|s| - 1] == NatToString(n / 10);
      NatToStringValue(n / 10);
    }
  }

  /** Integer.parseInt reads back whatever Integer.toString wrote. */
  lemma ParseIntToString(n: int32)
    ensures ParseInt(IntToString(n)) == Some(n)
  {
    var s := IntToString(n);
    if n < 0 {
      var t := NatToString(-(n as int));
      assert s[0] == '-' && s[1..] == t;
      NatToStringValue(-(n as int));
    } else {
      NatToStringValue(n as int);
      assert IsDigit(s[0]);
    }
  }
}
