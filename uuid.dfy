/**
  Bluetooth UUID text and its 16-bit short form, as the CoreBluetooth client computes it
  before every characteristic lookup: a UUID whose set bits all lie inside the mask
  0000FFFF-0000-1000-8000-00805F9B34FB is shortened to its 16-bit field (the Bluetooth
  Base UUID shortening of the Bluetooth Core Specification, Vol 3, Part B, section 2.5.1).
  UUID text is converted to an integer as the big-endian value of its 32 hex digits.
 */
module Uuid {
  import opened Wrappers
  import opened Hex

  /** The tail shared by every UUID of the Bluetooth Base UUID range. */
  const BaseTail: string := "-0000-1000-8000-00805F9B34FB"

  /** The 24 hex digits of BaseTail. */
  const TailDigits: seq<nat> := [0, 0, 0, 0, 1, 0, 0, 0, 8, 0, 0, 0, 0, 0, 8, 0, 5, 15, 9, 11, 3, 4, 15, 11]

  /** The text the 16-bit test compares against (`test_uuid`): 0000FFFF-0000-1000-8000-00805F9B34FB. */
  const MaskText: string := BaseUuid("FFFF")

  /** The 32 hex digits of MaskText. */
  const MaskDigits: seq<nat> := [0, 0, 0, 0, 15, 15, 15, 15] + TailDigits

  // ---------------------------------------------------------------------------
  // The canonical 36-character form xxxxxxxx-xxxx-xxxx-xxxx-xxxxxxxxxxxx
  // ---------------------------------------------------------------------------

  predicate IsDashPos(p: nat) {
    p == 8 || p == 13 || p == 18 || p == 23
  }

  /** Where the i-th of the 32 hex digits stands in the canonical text. */
  function CharPos(i: nat): (p: nat)
    requires i < 32
    ensures p < 36 && !IsDashPos(p)
  {
    if i < 8 then i else if i < 12 then i + 1 else if i < 16 then i + 2 else if i < 20 then i + 3 else i + 4
  }

  /** Which hex digit a non-dash position of the canonical text holds. */
  function DigitIndex(p: nat): (i: nat)
    requires p < 36 && !IsDashPos(p)
    ensures i < 32 && CharPos(i) == p
  {
    if p < 8 then p else if p < 13 then p - 1 else if p < 18 then p - 2 else if p < 23 then p - 3 else p - 4
  }

  predicate IsCanonical(s: string) {
    |s| == 36 &&
    forall p :: 0 <= p < 36 ==> if IsDashPos(p) then s[p] == '-' else IsHexChar(s[p])
  }

  /** The 32 hex digits of a canonical UUID, most significant first. */
  function DigitsOf(s: string): (ds: seq<nat>)
    requires IsCanonical(s)
    ensures |ds| == 32 && IsDigits(ds)
  {
    seq(32, i requires 0 <= i < 32 => HexCharValue(s[CharPos(i)]))
  }

  /** The canonical upper-case text of 32 hex digits. */
  function Layout(ds: seq<nat>): (s: string)
    requires |ds| == 32 && IsDigits(ds)
    ensures IsCanonical(s) && IsUpper(s)
  {
    seq(36, p requires 0 <= p < 36 => if IsDashPos(p) then '-' else UpperHexChar(ds[DigitIndex(p)]))
  }

  lemma DigitsOfLayout(ds: seq<nat>)
    requires |ds| == 32 && IsDigits(ds)
    ensures DigitsOf(Layout(ds)) == ds
  {
  }

  lemma LayoutOfDigits(s: string)
    requires IsCanonical(s)
    ensures Layout(DigitsOf(s)) == Upper(s)
  {
    forall p | 0 <= p < 36
      ensures Layout(DigitsOf(s))[p] == Upper(s)[p]
    {
      if !IsDashPos(p) {
        UpperHexValue(s[p]);
      }
    }
  }

  // ---------------------------------------------------------------------------
  // convert_uuid_to_int and convert_int_to_uuid
  // ---------------------------------------------------------------------------

  /** The UUID text read as a big-endian 128-bit integer; None where CBUUID rejects the text. */
  function UuidToInt(s: string): (r: Option<nat>)
    ensures r.Some? <==> IsCanonical(s)
    ensures r.Some? ==> r.value < Pow16(32)
  {
    if IsCanonical(s) then (ValueBound(DigitsOf(s)); Some(Value(DigitsOf(s)))) else None
  }

  /**
    The 16 big-endian octets of i as canonical upper-case UUID text; None where
    `i.to_bytes(length=16, ...)` raises (a negative i or one of 129 bits or more).
   */
  function IntToUuid(i: int): (r: Option<string>)
    ensures r.Some? <==> 0 <= i < Pow16(32)
    ensures r.Some? ==> IsCanonical(r.value) && IsUpper(r.value)
  {
    if 0 <= i < Pow16(32) then Some(Layout(ToDigits(i, 32))) else None
  }

  /** Printing an integer as a UUID and reading it back gives the integer. */
  lemma IntToUuidToInt(i: int)
    requires 0 <= i < Pow16(32)
    ensures UuidToInt(IntToUuid(i).value) == Some(i)
  {
    DigitsOfLayout(ToDigits(i, 32));
    ToDigitsValue(i, 32);
  }

  /** Reading canonical UUID text and printing it back gives the text upper-cased. */
  lemma UuidToIntToUuid(s: string)
    requires IsCanonical(s)
    ensures IntToUuid(UuidToInt(s).value) == Some(Upper(s))
  {
    ValueToDigits(DigitsOf(s));
    LayoutOfDigits(s);
  }

  /** Upper-casing does not change the integer a UUID denotes. */
  lemma UuidToIntUpper(s: string)
    ensures UuidToInt(Upper(s)) == UuidToInt(s)
  {
    if IsCanonical(s) {
      forall p | 0 <= p < 36 && !IsDashPos(p)
        ensures IsHexChar(Upper(s)[p])
      {
        UpperHexValue(s[p]);
      }
      assert IsCanonical(Upper(s));
      forall i | 0 <= i < 32
        ensures DigitsOf(Upper(s))[i] == DigitsOf(s)[i]
      {
        UpperHexValue(s[CharPos(i)]);
      }
      assert DigitsOf(Upper(s)) == DigitsOf(s);
    } else {
      forall p | 0 <= p < |s|
        ensures (Upper(s)[p] == '-') == (s[p] == '-') && IsHexChar(Upper(s)[p]) == IsHexChar(s[p])
      {
        UpperCharShape(s[p]);
      }
    }
  }

  // ---------------------------------------------------------------------------
  // is_uuid_16bit_compatible
  // ---------------------------------------------------------------------------

  lemma MaskCanonical()
    ensures IsCanonical(MaskText) && DigitsOf(MaskText) == MaskDigits
  {
    BaseUuidShape("FFFF");
  }

  /** `test_int`: the mask text as an integer. */
  function MaskInt(): (m: nat)
    ensures UuidToInt(MaskText) == Some(m) && m == Value(MaskDigits)
  {
    MaskCanonical();
    UuidToInt(MaskText).value
  }

  /**
    The 16-bit test as written: `uuid_int & test_int == uuid_int`, None where the
    conversion of the candidate fails.
   */
  function Is16BitCompatible(s: string): (r: Option<bool>)
    ensures r.Some? <==> IsCanonical(s)
  {
    match UuidToInt(s)
    case None => None
    case Some(u) => Some(And(u, MaskInt()) == u)
  }

  /** A hex digit every set bit of which lies in the mask digit m. */
  predicate DigitInMask(d: nat, m: nat) {
    And(d, m) == d
  }

  /**
    The integer test agrees with a test of the 32 hex digits, one at a time: the UUID is
    16-bit compatible exactly when each of its digits is a sub-pattern of the mask's.
   */
  lemma Is16BitCompatibleDigitwise(s: string)
    requires IsCanonical(s)
    ensures Is16BitCompatible(s) == Some(true) <==>
            forall i :: 0 <= i < 32 ==> DigitInMask(DigitsOf(s)[i], MaskDigits[i])
  {
    MaskCanonical();
    AndSubsetDigitwise(DigitsOf(s), MaskDigits);
  }

  /** Every digit of the 16-bit field passes; the first four digits pass only when zero. */
  lemma DigitInMaskCases(d: nat)
    requires d < 16
    ensures DigitInMask(d, 15)
    ensures DigitInMask(d, 0) <==> d == 0
    ensures DigitInMask(0, d) && DigitInMask(d, d)
  {
    assert Pow2(4) - 1 == 15;
    AndAllOnes(d, 4);
    AndSelf(d);
  }

  /** The text of a Base UUID with 16-bit field x: 0000xxxx-0000-1000-8000-00805F9B34FB. */
  function BaseUuid(x: string): (s: string)
    requires |x| == 4
    ensures |s| == 36 && s[4..8] == x
  {
    "0000" + x + BaseTail
  }

  predicate IsShortUuid(x: string) {
    |x| == 4 && forall p :: 0 <= p < 4 ==> IsHexChar(x[p])
  }

  lemma BaseTailShape()
    ensures |BaseTail| == 28
    ensures forall p :: 8 <= p < 36 ==>
      if IsDashPos(p) then BaseTail[p - 8] == '-'
      else IsHexChar(BaseTail[p - 8]) && HexCharValue(BaseTail[p - 8]) == TailDigits[DigitIndex(p) - 8]
  {
  }

  lemma BaseUuidShape(x: string)
    requires IsShortUuid(x)
    ensures IsCanonical(BaseUuid(x))
    ensures DigitsOf(BaseUuid(x)) ==
            [0, 0, 0, 0, HexCharValue(x[0]), HexCharValue(x[1]), HexCharValue(x[2]), HexCharValue(x[3])] + TailDigits
  {
    var s := BaseUuid(x);
    BaseTailShape();
    assert forall p :: 8 <= p < 36 ==> s[p] == BaseTail[p - 8];
    assert forall p :: 4 <= p < 8 ==> s[p] == x[p - 4];
    assert forall p :: 0 <= p < 4 ==> s[p] == '0';
    assert IsCanonical(s);
  }

  /** Every UUID of the Base UUID range passes the 16-bit test. */
  lemma BaseUuidCompatible(x: string)
    requires IsShortUuid(x)
    ensures IsCanonical(BaseUuid(x))
    ensures Is16BitCompatible(BaseUuid(x)) == Some(true)
  {
    var s := BaseUuid(x);
    BaseUuidShape(x);
    var ds := DigitsOf(s);
    forall i | 0 <= i < 32
      ensures DigitInMask(ds[i], MaskDigits[i])
    {
      DigitInMaskCases(ds[i]);
      if 8 <= i {
        assert ds[i] == MaskDigits[i];
      }
    }
    Is16BitCompatibleDigitwise(s);
  }

  /**
    The test is a bit-subset test, not equality with the Base UUID: the all-zero UUID
    also passes.
   */
  lemma NilUuidCompatible()
    ensures Is16BitCompatible("00000000-0000-0000-0000-000000000000") == Some(true)
  {
    var s := "00000000-0000-0000-0000-000000000000";
    assert IsCanonical(s);
    forall i | 0 <= i < 32
      ensures DigitInMask(DigitsOf(s)[i], MaskDigits[i])
    {
      assert DigitsOf(s)[i] == 0;
      DigitInMaskCases(MaskDigits[i]);
    }
    Is16BitCompatibleDigitwise(s);
  }

  /**
    A set bit outside the mask fails the test: when a digit of the first four is
    non-zero, or any other digit is not a sub-pattern of the mask's, the UUID keeps
    its full form.
   */
  lemma OutsideMaskIncompatible(s: string, i: nat)
    requires IsCanonical(s) && i < 32
    requires !DigitInMask(DigitsOf(s)[i], MaskDigits[i])
    ensures Is16BitCompatible(s) == Some(false)
  {
    Is16BitCompatibleDigitwise(s);
  }

  // ---------------------------------------------------------------------------
  // get_appropriate_uuid
  // ---------------------------------------------------------------------------

  /**
    The lookup key for a UUID: four characters are upper-cased; a UUID that passes the
    16-bit test becomes its 16-bit field `_uuid[4:8]` upper-cased; any other UUID is
    upper-cased in full. None where CBUUID rejects the text.
   */
  function Normalize(s: string): (r: Option<string>)
    ensures r.None? <==> |s| != 4 && !IsCanonical(s)
    ensures r.Some? ==> IsUpper(r.value) && (|r.value| == 4 || |r.value| == 36)
  {
    UpperIsUpper(s);
    if |s| == 4 then Some(Upper(s))
    else match Is16BitCompatible(s)
      case None => None
      case Some(compatible) =>
        UpperIsUpper(s[4..8]);
        if compatible then Some(Upper(s[4..8])) else Some(Upper(s))
  }

  /** A four-character UUID is returned upper-cased. */
  lemma NormalizeShort(x: string)
    requires |x| == 4
    ensures Normalize(x) == Some(Upper(x))
  {
  }

  /** A UUID of the Base UUID range becomes its 16-bit field, upper-cased. */
  lemma NormalizeBaseUuid(x: string)
    requires IsShortUuid(x)
    ensures Normalize(BaseUuid(x)) == Some(Upper(x))
  {
    BaseUuidCompatible(x);
  }

  /** A UUID that fails the 16-bit test is returned upper-cased and in full. */
  lemma NormalizeOutsideBase(s: string)
    requires IsCanonical(s) && Is16BitCompatible(s) == Some(false)
    ensures Normalize(s) == Some(Upper(s)) && |Upper(s)| == 36
  {
  }

  /** A canonical UUID that passes the test becomes four hex characters. */
  lemma NormalizeCompatible(s: string)
    requires IsCanonical(s) && Is16BitCompatible(s) == Some(true)
    ensures Normalize(s) == Some(Upper(s[4..8])) && IsShortUuid(Upper(s[4..8]))
  {
    forall p | 0 <= p < 4
      ensures IsHexChar(Upper(s[4..8])[p])
    {
      assert s[4..8][p] == s[CharPos(4 + p)];
      UpperHexValue(s[4 + p]);
    }
  }

  /** Normalising is idempotent: a key, normalised again, is the same key. */
  lemma NormalizeIdempotent(s: string)
    requires Normalize(s).Some?
    ensures Normalize(Normalize(s).value) == Normalize(s)
  {
    var t := Normalize(s).value;
    if |t| == 4 {
      UpperOfUpper(t);
    } else {
      assert |s| != 4 && IsCanonical(s) && t == Upper(s);
      UuidToIntUpper(s);
      UpperIsUpper(s);
    }
  }

  /**
    A short UUID and the Base UUID built from it give the same key, so a characteristic
    can be addressed by either form.
   */
  lemma ShortAndFullFormAgree(x: string)
    requires IsShortUuid(x)
    ensures Normalize(BaseUuid(x)) == Normalize(x)
  {
    NormalizeBaseUuid(x);
  }

  /**
    Round trip through the full form: for a UUID of the Base range, building the full
    form of its key and normalising that gives the key back.
   */
  lemma NormalizeFullFormRoundTrip(s: string)
    requires IsCanonical(s) && Is16BitCompatible(s) == Some(true)
    ensures Normalize(BaseUuid(Normalize(s).value)) == Normalize(s)
  {
    NormalizeCompatible(s);
    var k := Upper(s[4..8]);
    NormalizeBaseUuid(k);
    UpperIsUpper(s[4..8]);
  }
}
