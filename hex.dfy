/** Python's '%x' % n for a non-negative n: the lowercase hexadecimal digits of n,
    as few as possible ("0" for zero), and its inverse. */
module HexFormat {

  predicate IsHexDigit(c: char) {
    '0' <= c <= '9' || 'a' <= c <= 'f'
  }

  predicate AllHexDigits(s: string) {
    forall i :: 0 <= i < |s| ==> IsHexDigit(s[i])
  }

  /** A digit string as '%x' writes it: non-empty, and no leading zero unless it is "0". */
  predicate IsCanonicalHex(s: string) {
    |s| >= 1 && AllHexDigits(s) && (s[0] == '0' ==> s == "0")
  }

  function DigitChar(v: nat): (c: char)
    requires v < 16
    ensures IsHexDigit(c)
  {
    if v < 10 then ('0' as int + v) as char else ('a' as int + v - 10) as char
  }

  function DigitValue(c: char): (v: nat)
    requires IsHexDigit(c)
    ensures v < 16 && DigitChar(v) == c
  {
    if c <= '9' then c as int - '0' as int else c as int - 'a' as int + 10
  }

  /** '%x' % n */
  function Hex(n: nat): (s: string)
    decreases n
  {
    if n < 16 then [DigitChar(n)] else Hex(n / 16) + [DigitChar(n % 16)]
  }

  /** The number a string of hexadecimal digits denotes (int(s, 16)). */
  function HexValue(s: string): nat
    requires AllHexDigits(s)
  {
    if s == [] then 0 else HexValue(s[..|s| - 1]) * 16 + DigitValue(s[|s| - 1])
  }

  function Pow16(k: nat): (p: nat)
    ensures p >= 1
  {
    if k == 0 then 1 else 16 * Pow16(k - 1)
  }

  /** '%x' always yields a canonical digit string. */
  lemma {:induction false} HexIsCanonical(n: nat)
    ensures IsCanonicalHex(Hex(n))
    ensures n == 0 <==> Hex(n) == "0"
    decreases n
  {
    if n >= 16 {
      HexIsCanonical(n / 16);
      var p := Hex(n / 16);
      assert Hex(n)[0] == p[0];
      assert p != "0";
    }
  }

  /** Reading the digits back gives the number: int('%x' % n, 16) == n. */
  lemma {:induction false} HexRoundTrip(n: nat)
    ensures AllHexDigits(Hex(n)) && HexValue(Hex(n)) == n
    decreases n
  {
    HexIsCanonical(n);
    var s := Hex(n);
    if n >= 16 {
      HexRoundTrip(n / 16);
      assert s[..|s| - 1] == Hex(n / 16);
    } else {
      assert s[..|s| - 1] == [];
    }
  }

  lemma {:induction false} HexValuePositive(s: string)
    requires |s| >= 1 && AllHexDigits(s) && s[0] != '0'
    ensures HexValue(s) > 0
    decreases |s|
  {
    if |s| > 1 {
      HexValuePositive(s[..|s| - 1]);
    }
  }

  /** Conversely, every canonical digit string is what '%x' writes for its value. */
  lemma {:induction false} CanonicalHexRoundTrip(s: string)
    requires IsCanonicalHex(s)
    ensures Hex(HexValue(s)) == s
    decreases |s|
  {
    var p := s[..|s| - 1];
    var d := s[|s| - 1];
    if |s| == 1 {
      assert p == [];
    } else {
      assert p[0] == s[0] != '0';
      CanonicalHexRoundTrip(p);
      HexValuePositive(p);
      var n := HexValue(s);
      assert n / 16 == HexValue(p) && n % 16 == DigitValue(d);
      assert s == p + [d];
    }
  }

  /** A number below 16^k has at most k digits. */
  lemma {:induction false} HexLengthBound(n: nat, k: nat)
    requires k >= 1 && n < Pow16(k)
    ensures |Hex(n)| <= k
    decreases k
  {
    if n >= 16 {
      assert k >= 2;
      HexLengthBound(n / 16, k - 1);
    }
  }
}
