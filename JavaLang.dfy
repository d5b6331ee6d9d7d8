/** The few pieces of the Java platform that the bank's account and transfer
    code relies on: String.compareTo (the lock order), String.hashCode and
    Objects.hash (Account.hashCode), and the decimal rendering of an int
    (Account.toString). Integers are unbounded except where Java's 32-bit
    wrap-around is part of the result (hash codes). */
module JavaLang {

  datatype Option<T> = None | Some(value: T)

  // ---------------------------------------------------------------------
  // String.compareTo: lexicographic by character, then by length
  // ---------------------------------------------------------------------

  /** Java's String.compareTo: at the first index where the strings differ,
      the difference of the two characters; if one is a prefix of the other,
      the difference of the lengths. */
  function CompareTo(a: string, b: string): (r: int)
    ensures a == b ==> r == 0
    ensures |a| == 0 ==> r == -|b|
    decreases |a|
  {
    if |a| == 0 || |b| == 0 then |a| - |b|
    else if a[0] != b[0] then a[0] as int - b[0] as int
    else CompareTo(a[1..], b[1..])
  }

  /** Swapping the operands negates the result exactly. */
  lemma {:induction false} CompareToAntisymmetric(a: string, b: string)
    ensures CompareTo(b, a) == -CompareTo(a, b)
    decreases |a|
  {
    if |a| != 0 && |b| != 0 && a[0] == b[0] {
      CompareToAntisymmetric(a[1..], b[1..]);
    }
  }

  /** The result is zero exactly for equal strings. */
  lemma {:induction false} CompareToZero(a: string, b: string)
    ensures CompareTo(a, b) == 0 <==> a == b
    decreases |a|
  {
    if |a| != 0 && |b| != 0 && a[0] == b[0] {
      CompareToZero(a[1..], b[1..]);
      assert a == [a[0]] + a[1..] && b == [b[0]] + b[1..];
    }
  }

  /** "compares smaller" is transitive, so it is a strict total order on
      strings together with the two lemmas above. */
  lemma {:induction false} CompareToTransitive(a: string, b: string, c: string)
    requires CompareTo(a, b) < 0 && CompareTo(b, c) < 0
    ensures CompareTo(a, c) < 0
    decreases |a|
  {
    if |a| != 0 && |b| != 0 && |c| != 0 && a[0] == b[0] == c[0] {
      CompareToTransitive(a[1..], b[1..], c[1..]);
    }
  }

  // ---------------------------------------------------------------------
  // Hash codes: 32-bit arithmetic with wrap-around
  // ---------------------------------------------------------------------

  const TwoTo31: int := 0x8000_0000
  const TwoTo32: int := 0x1_0000_0000

  predicate IsInt32(x: int) { -TwoTo31 <= x < TwoTo31 }

  /** Reduces an unbounded integer to the Java int with the same low 32 bits. */
  function WrapInt32(x: int): (r: int)
    ensures IsInt32(r)
    ensures (x - r) % TwoTo32 == 0
    ensures IsInt32(x) ==> r == x
  {
    (x + TwoTo31) % TwoTo32 - TwoTo31
  }

  /** Java's String.hashCode: h = 31 * h + c over the characters, in int. */
  function StringHashCode(s: string): (h: int)
    ensures IsInt32(h)
  {
    if s == [] then 0
    else WrapInt32(31 * StringHashCode(s[..|s| - 1]) + s[|s| - 1] as int)
  }

  /** Objects.hash(x) for one argument whose own hash code is h:
      31 * 1 + h, in int. */
  function ObjectsHash1(h: int): (r: int)
    ensures IsInt32(r)
    ensures IsInt32(h) && h < TwoTo31 - 31 ==> r == 31 + h
  {
    WrapInt32(31 + h)
  }

  // ---------------------------------------------------------------------
  // Decimal rendering of an int (string concatenation "" + n)
  // ---------------------------------------------------------------------

  function DigitChar(d: int): (c: char)
    requires 0 <= d < 10
    ensures '0' <= c <= '9' && c as int - '0' as int == d
  {
    ('0' as int + d) as char
  }

  /** All characters are decimal digits, and there is at least one. */
  predicate IsDigits(s: string) {
    |s| > 0 && forall i :: 0 <= i < |s| ==> '0' <= s[i] <= '9'
  }

  /** The digits of a natural number, most significant first, no leading zero. */
  function NatToString(n: nat): (s: string)
    ensures IsDigits(s)
    ensures s[0] == '0' ==> n == 0
  {
    if n < 10 then [DigitChar(n)] else NatToString(n / 10) + [DigitChar(n % 10)]
  }

  /** Java's decimal rendering of an int: a minus sign for negatives. */
  function IntToString(n: int): (s: string)
    ensures |s| > 0
    ensures s[0] == '-' <==> n < 0
  {
    if n < 0 then "-" + NatToString(-n) else NatToString(n)
  }

  /** The value of a string of decimal digits. */
  function DigitsValue(s: string): (n: nat)
    requires IsDigits(s)
  {
    var last := s[|s| - 1] as int - '0' as int;
    if |s| == 1 then last else 10 * DigitsValue(s[..|s| - 1]) + last
  }

  /** Reads back an optionally signed decimal number; None for anything else. */
  function ParseInt(s: string): Option<int> {
    if |s| > 0 && s[0] == '-' then
      if IsDigits(s[1..]) then Some(-(DigitsValue(s[1..]) as int)) else None
    else if IsDigits(s) then Some(DigitsValue(s))
    else None
  }

  lemma {:induction false} NatToStringRoundTrip(n: nat)
    ensures DigitsValue(NatToString(n)) == n
  {
    if n >= 10 {
      NatToStringRoundTrip(n / 10);
      var s := NatToString(n);
      assert s[..|s| - 1] == NatToString(n / 10);
    }
  }

  /** The rendering of an int reads back as the same int. */
  lemma IntToStringRoundTrip(n: int)
    ensures ParseInt(IntToString(n)) == Some(n)
  {
    if n < 0 {
      var d := NatToString(-n);
      NatToStringRoundTrip(-n);
      assert IntToString(n) == "-" + d;
      assert ("-" + d)[1..] == d;
    } else {
      var d := NatToString(n);
      NatToStringRoundTrip(n);
      assert '0' <= d[0] <= '9';
    }
  }
}
