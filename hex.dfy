/**
  Octets, hexadecimal digits and the integer arithmetic that the UUID code performs
  with Python integers: `int.from_bytes(..., byteorder='big')` is a base-16 value of
  the hex digits, and `&` is the bitwise and of two non-negative integers.
 */
module Hex {

  /** One octet, as Python's `bytes` yields it. */
  type byte = x: int | 0 <= x < 256

  function Pow2(k: nat): (r: nat)
    ensures r >= 1
  {
    if k == 0 then 1 else 2 * Pow2(k - 1)
  }

  function Pow16(k: nat): (r: nat)
    ensures r >= 1
  {
    if k == 0 then 1 else 16 * Pow16(k - 1)
  }

  // ---------------------------------------------------------------------------
  // Python `a & b` on non-negative integers
  // ---------------------------------------------------------------------------

  /** Bitwise and, least significant bit first. Both results are sub-values of the operands. */
  function And(a: nat, b: nat): (r: nat)
    ensures r <= a && r <= b
    decreases a
  {
    if a == 0 then 0 else 2 * And(a / 2, b / 2) + Bit(a % 2 == 1 && b % 2 == 1)
  }

  function Bit(b: bool): nat {
    if b then 1 else 0
  }

  /** Shifting one bit out of both operands. */
  lemma AndBit(a: nat, q1: nat, r1: nat, b: nat, q2: nat, r2: nat)
    requires r1 < 2 && r2 < 2 && a == 2 * q1 + r1 && b == 2 * q2 + r2
    ensures And(a, b) == 2 * And(q1, q2) + Bit(r1 == 1 && r2 == 1)
  {
    if a == 0 {
      assert q1 == 0 && r1 == 0;
    } else {
      assert a / 2 == q1 && a % 2 == r1;
      assert b / 2 == q2 && b % 2 == r2;
    }
  }

  /** The and of two numbers below 4, bit by bit. */
  lemma AndLowQuad(r1: nat, r2: nat)
    requires r1 < 4 && r2 < 4
    ensures And(r1, r2) == 2 * Bit(r1 / 2 == 1 && r2 / 2 == 1) + Bit(r1 % 2 == 1 && r2 % 2 == 1)
  {
    var s1, s2 := r1 / 2, r2 / 2;
    AndBit(s1, 0, s1, s2, 0, s2);
    AndBit(r1, s1, r1 % 2, r2, s2, r2 % 2);
  }

  /** The and of two base-4 numbers is computed one base-4 digit at a time. */
  lemma AndQuad(a: nat, q1: nat, r1: nat, b: nat, q2: nat, r2: nat)
    requires r1 < 4 && r2 < 4 && a == 4 * q1 + r1 && b == 4 * q2 + r2
    ensures And(a, b) == 4 * And(q1, q2) + And(r1, r2)
  {
    var s1, s2 := r1 / 2, r2 / 2;
    var m1, m2 := 2 * q1 + s1, 2 * q2 + s2;
    AndBit(a, m1, r1 % 2, b, m2, r2 % 2);
    AndBit(m1, q1, s1, m2, q2, s2);
    AndLowQuad(r1, r2);
  }

  /** The and of two hexadecimal numbers is computed one hex digit at a time. */
  lemma AndNibble(a: nat, q1: nat, d1: nat, b: nat, q2: nat, d2: nat)
    requires d1 < 16 && d2 < 16 && a == 16 * q1 + d1 && b == 16 * q2 + d2
    ensures And(a, b) == 16 * And(q1, q2) + And(d1, d2)
  {
    var h1, l1, h2, l2 := 4 * q1 + d1 / 4, d1 % 4, 4 * q2 + d2 / 4, d2 % 4;
    var t1, t2 := d1 / 4, d2 / 4;
    AndQuad(a, h1, l1, b, h2, l2);
    AndQuad(h1, q1, t1, h2, q2, t2);
    AndQuad(d1, t1, l1, d2, t2, l2);
  }

  lemma {:induction false} AndSelf(a: nat)
    ensures And(a, a) == a
    decreases a
  {
    if a != 0 {
      AndSelf(a / 2);
    }
  }

  lemma {:induction false} AndAllOnes(a: nat, k: nat)
    requires a < Pow2(k)
    ensures And(a, Pow2(k) - 1) == a
    decreases k
  {
    if a != 0 {
      assert k > 0;
      assert (Pow2(k) - 1) / 2 == Pow2(k - 1) - 1 && (Pow2(k) - 1) % 2 == 1;
      AndAllOnes(a / 2, k - 1);
    }
  }

  // ---------------------------------------------------------------------------
  // Base-16 digit sequences, most significant digit first
  // ---------------------------------------------------------------------------

  predicate IsDigits(ds: seq<nat>) {
    forall i :: 0 <= i < |ds| ==> ds[i] < 16
  }

  /** The big-endian value of a digit sequence. */
  function Value(ds: seq<nat>): nat
  {
    if ds == [] then 0 else 16 * Value(ds[..|ds| - 1]) + ds[|ds| - 1]
  }

  lemma {:induction false} ValueBound(ds: seq<nat>)
    requires IsDigits(ds)
    ensures Value(ds) < Pow16(|ds|)
  {
    if ds != [] {
      ValueBound(ds[..|ds| - 1]);
    }
  }

  /** Two digit sequences of one length with one value are the same sequence. */
  lemma {:induction false} ValueInjective(a: seq<nat>, b: seq<nat>)
    requires IsDigits(a) && IsDigits(b) && |a| == |b|
    requires Value(a) == Value(b)
    ensures a == b
  {
    if a != [] {
      var n := |a| - 1;
      ValueInjective(a[..n], b[..n]);
      assert a == a[..n] + [a[n]] && b == b[..n] + [b[n]];
    }
  }

  /** The k low-order digits of n, most significant first. */
  function ToDigits(n: nat, k: nat): (ds: seq<nat>)
    ensures |ds| == k && IsDigits(ds)
  {
    if k == 0 then [] else ToDigits(n / 16, k - 1) + [n % 16]
  }

  lemma {:induction false} ToDigitsValue(n: nat, k: nat)
    requires n < Pow16(k)
    ensures Value(ToDigits(n, k)) == n
  {
    if k > 0 {
      ToDigitsValue(n / 16, k - 1);
      var ds := ToDigits(n, k);
      assert ds[..k - 1] == ToDigits(n / 16, k - 1);
    }
  }

  lemma ValueToDigits(ds: seq<nat>)
    requires IsDigits(ds)
    ensures ToDigits(Value(ds), |ds|) == ds
  {
    ValueBound(ds);
    ToDigitsValue(Value(ds), |ds|);
    ValueInjective(ToDigits(Value(ds), |ds|), ds);
  }

  /** Digit-wise and of two digit sequences of one length. */
  function AndDigits(a: seq<nat>, b: seq<nat>): (r: seq<nat>)
    requires |a| == |b|
    ensures |r| == |a|
  {
    seq(|a|, i requires 0 <= i < |a| => And(a[i], b[i]))
  }

  lemma {:induction false} AndValue(a: seq<nat>, b: seq<nat>)
    requires IsDigits(a) && IsDigits(b) && |a| == |b|
    ensures And(Value(a), Value(b)) == Value(AndDigits(a, b))
  {
    if a != [] {
      var n := |a| - 1;
      AndValue(a[..n], b[..n]);
      AndNibble(Value(a), Value(a[..n]), a[n], Value(b), Value(b[..n]), b[n]);
      assert AndDigits(a, b)[..n] == AndDigits(a[..n], b[..n]);
    }
  }

  /**
    The and of two numbers of one digit length equals the first number exactly when,
    digit by digit, every set bit of the first lies in the second.
   */
  lemma AndSubsetDigitwise(a: seq<nat>, b: seq<nat>)
    requires IsDigits(a) && IsDigits(b) && |a| == |b|
    ensures And(Value(a), Value(b)) == Value(a) <==> forall i :: 0 <= i < |a| ==> And(a[i], b[i]) == a[i]
  {
    AndValue(a, b);
    var c := AndDigits(a, b);
    assert IsDigits(c);
    if Value(c) == Value(a) {
      ValueInjective(c, a);
      assert forall i :: 0 <= i < |a| ==> And(a[i], b[i]) == c[i];
    }
    if forall i :: 0 <= i < |a| ==> And(a[i], b[i]) == a[i] {
      assert c == a;
    }
  }

  // ---------------------------------------------------------------------------
  // Characters
  // ---------------------------------------------------------------------------

  predicate IsHexChar(c: char) {
    '0' <= c <= '9' || 'a' <= c <= 'f' || 'A' <= c <= 'F'
  }

  function HexCharValue(c: char): (d: nat)
    requires IsHexChar(c)
    ensures d < 16
  {
    if '0' <= c <= '9' then c as int - '0' as int
    else if 'a' <= c <= 'f' then c as int - 'a' as int + 10
    else c as int - 'A' as int + 10
  }

  /** The digit as an upper-case hex character, as CBUUID prints it. */
  function UpperHexChar(d: nat): (c: char)
    requires d < 16
    ensures IsHexChar(c) && HexCharValue(c) == d && UpperChar(c) == c
  {
    if d < 10 then ('0' as int + d) as char else ('A' as int + d - 10) as char
  }

  /** The digit as a lower-case hex character, as Python's `format(x, 'x')` prints it. */
  function LowerHexChar(d: nat): (c: char)
    requires d < 16
    ensures IsHexChar(c) && HexCharValue(c) == d && !('A' <= c <= 'Z')
  {
    if d < 10 then ('0' as int + d) as char else ('a' as int + d - 10) as char
  }

  /** Python's `str.upper()` restricted to ASCII letters. */
  function UpperChar(c: char): (u: char)
    ensures !('a' <= u <= 'z')
    ensures 'a' <= c <= 'z' ==> u as int == c as int - 32
    ensures !('a' <= c <= 'z') ==> u == c
  {
    if 'a' <= c <= 'z' then (c as int - 32) as char else c
  }

  function Upper(s: string): (u: string)
    ensures |u| == |s|
    ensures forall i :: 0 <= i < |s| ==> u[i] == UpperChar(s[i])
  {
    seq(|s|, i requires 0 <= i < |s| => UpperChar(s[i]))
  }

  predicate IsUpper(s: string) {
    forall i :: 0 <= i < |s| ==> !('a' <= s[i] <= 'z')
  }

  lemma UpperIsUpper(s: string)
    ensures IsUpper(Upper(s)) && Upper(Upper(s)) == Upper(s)
  {
  }

  lemma UpperOfUpper(s: string)
    requires IsUpper(s)
    ensures Upper(s) == s
  {
  }

  /** Upper-casing changes neither whether a character is a dash nor whether it is a hex digit. */
  lemma UpperCharShape(c: char)
    ensures (UpperChar(c) == '-') == (c == '-')
    ensures IsHexChar(UpperChar(c)) == IsHexChar(c)
  {
  }

  /** Upper-casing keeps a hex character a hex character of the same value. */
  lemma UpperHexValue(c: char)
    requires IsHexChar(c)
    ensures IsHexChar(UpperChar(c)) && HexCharValue(UpperChar(c)) == HexCharValue(c)
    ensures UpperHexChar(HexCharValue(c)) == UpperChar(c)
  {
  }
}
