/**
  What one scan reports and how the CoreBluetooth client turns it into devices: the
  display name, the manufacturer-specific data (company identifier in the first two
  octets, little-endian; the rest rendered as lower-case hex), the list of devices found
  and the address match `connect` performs on it.
 */
module Advertisement {
  import opened Wrappers
  import opened Hex
  import opened Gatt

  /**
    A peripheral the scan reported, paired with the advertisement data recorded at the
    same position: `identifier` is the text of its identifier UUID, `name` what `name()`
    returned, `manufacturerData` the value under `kCBAdvDataManufacturerData`, if any.
   */
  datatype Peripheral = Peripheral(
    identifier: string,
    name: Option<string>,
    obj: NativeRef,
    manufacturerData: Option<seq<byte>>)

  /** A device as the scan hands it to `connect`: address, name, native handle, manufacturer data. */
  datatype BLEDevice = BLEDevice(address: string, name: string, details: NativeRef, manufacturerData: map<nat, string>)

  /** `peripheral.name() or "Unknown"`: a missing or empty name becomes "Unknown". */
  function DisplayName(name: Option<string>): (r: string)
    ensures r != []
    ensures name.Some? && name.value != [] ==> r == name.value
    ensures name.None? || name.value == [] ==> r == "Unknown"
  {
    if name.Some? && name.value != [] then name.value else "Unknown"
  }

  // ---------------------------------------------------------------------------
  // Manufacturer-specific data
  // ---------------------------------------------------------------------------

  /** `int.from_bytes(bs, byteorder='little')`. */
  function LittleEndian(bs: seq<byte>): nat
  {
    if bs == [] then 0 else bs[0] + 256 * LittleEndian(bs[1..])
  }

  /**
    The company identifier: the little-endian value of the first two octets (of the one
    octet there is, when the data is that short).
   */
  function ManufacturerId(data: seq<byte>): (id: nat)
    ensures id < 65536
    ensures |data| >= 2 ==> id % 256 == data[0] && id / 256 == data[1]
    ensures |data| == 1 ==> id == data[0]
    ensures data == [] ==> id == 0
  {
    var head := if |data| >= 2 then data[..2] else data;
    LittleEndianShort(head);
    LittleEndian(head)
  }

  lemma LittleEndianShort(bs: seq<byte>)
    requires |bs| <= 2
    ensures LittleEndian(bs) == if |bs| == 0 then 0 else if |bs| == 1 then bs[0] as int else bs[0] as int + 256 * bs[1] as int
  {
    if |bs| == 2 {
      assert bs[1..][1..] == [];
    } else if |bs| == 1 {
      assert bs[1..] == [];
    }
  }

  /** Python's `format(x, 'x')` for one octet: one or two lower-case hex digits, no padding. */
  function FormatHex(x: byte): (f: string)
  {
    if x < 16 then [LowerHexChar(x)] else [LowerHexChar(x / 16), LowerHexChar(x % 16)]
  }

  /** One octet as the scan renders it: `format(x, 'x')`, with a "0" put in front when it has one digit. */
  function ByteHex(x: byte): (h: string)
    ensures |h| == 2
  {
    var f := FormatHex(x);
    if |f| == 2 then f else "0" + f
  }

  /** The two characters are lower-case hex digits whose value, high digit first, is the octet. */
  lemma ByteHexDigits(x: byte)
    ensures var h := ByteHex(x);
      && IsHexChar(h[0]) && IsHexChar(h[1])
      && !('A' <= h[0] <= 'Z') && !('A' <= h[1] <= 'Z')
      && 16 * HexCharValue(h[0]) + HexCharValue(h[1]) == x
  {
  }

  /** The octets joined as two-digit lower-case hex, in order. */
  function HexString(bs: seq<byte>): (s: string)
    ensures |s| == 2 * |bs|
  {
    if bs == [] then [] else HexString(bs[..|bs| - 1]) + ByteHex(bs[|bs| - 1])
  }

  /** The manufacturer value: every octet after the company identifier, as hex. */
  function ManufacturerValue(data: seq<byte>): (s: string)
    ensures |data| >= 2 ==> |s| == 2 * (|data| - 2)
    ensures |data| < 2 ==> s == []
  {
    HexString(if |data| >= 2 then data[2..] else [])
  }

  /** The dictionary a device carries: its company identifier mapped to the hex value. */
  function ManufacturerMap(data: seq<byte>): (m: map<nat, string>)
    ensures m.Keys == {ManufacturerId(data)}
    ensures m[ManufacturerId(data)] == ManufacturerValue(data)
  {
    map[ManufacturerId(data) := ManufacturerValue(data)]
  }

  /** Two hex characters as one octet, high digit first. */
  function DecodePair(hi: char, lo: char): (r: Option<byte>)
    ensures r.Some? <==> IsHexChar(hi) && IsHexChar(lo)
  {
    if IsHexChar(hi) && IsHexChar(lo) then Some(16 * HexCharValue(hi) + HexCharValue(lo)) else None
  }

  /** Every rendered octet decodes back to itself. */
  lemma DecodeByteHex(x: byte)
    ensures DecodePair(ByteHex(x)[0], ByteHex(x)[1]) == Some(x)
  {
    ByteHexDigits(x);
  }

  /** Hex text decoded two characters per octet: the inverse of HexString. */
  function ParseHex(s: string): (r: Option<seq<byte>>)
    ensures r.Some? ==> 2 * |r.value| == |s|
    decreases |s|
  {
    if s == [] then Some([])
    else if |s| < 2 then None
    else
      var prefix := ParseHex(s[..|s| - 2]);
      var last := DecodePair(s[|s| - 2], s[|s| - 1]);
      if prefix.Some? && last.Some? then Some(prefix.value + [last.value]) else None
  }

  /** Every octet rendered by the scan is recovered from its text: no information is lost. */
  lemma {:induction false} ParseHexString(bs: seq<byte>)
    ensures ParseHex(HexString(bs)) == Some(bs)
  {
    if bs != [] {
      ParseHexString(bs[..|bs| - 1]);
      ParseHexStep(bs);
    }
  }

  /** One more octet: if the text of all but the last octet decodes, so does the whole text. */
  lemma ParseHexStep(bs: seq<byte>)
    requires bs != [] && ParseHex(HexString(bs[..|bs| - 1])) == Some(bs[..|bs| - 1])
    ensures ParseHex(HexString(bs)) == Some(bs)
  {
    var n := |bs| - 1;
    var prefix := HexString(bs[..n]);
    var h := ByteHex(bs[n]);
    assert HexString(bs) == prefix + h;
    ParseHexAppend(prefix, h);
    DecodeByteHex(bs[n]);
    SplitLast(bs);
  }

  lemma SplitLast<T>(s: seq<T>)
    requires s != []
    ensures s[..|s| - 1] + [s[|s| - 1]] == s
  {
  }

  /** Decoding text with two more characters: the decoded prefix, then one more octet. */
  lemma ParseHexAppend(p: string, h: string)
    requires |h| == 2
    ensures var prefix := ParseHex(p);
      var last := DecodePair(h[0], h[1]);
      ParseHex(p + h) == if prefix.Some? && last.Some? then Some(prefix.value + [last.value]) else None
  {
    var s := p + h;
    assert s[..|s| - 2] == p;
    assert s[|s| - 2] == h[0] && s[|s| - 1] == h[1];
  }

  /** The rendered value is all lower-case hex. */
  lemma {:induction false} HexStringIsLowerHex(bs: seq<byte>)
    ensures forall i :: 0 <= i < |HexString(bs)| ==> IsHexChar(HexString(bs)[i]) && !('A' <= HexString(bs)[i] <= 'Z')
  {
    if bs != [] {
      HexStringIsLowerHex(bs[..|bs| - 1]);
      ByteHexDigits(bs[|bs| - 1]);
    }
  }

  // ---------------------------------------------------------------------------
  // The devices a scan yields
  // ---------------------------------------------------------------------------

  /** `if manufacturer_binary_data:` is true for data that is present and not empty. */
  predicate HasManufacturerData(p: Peripheral) {
    p.manufacturerData.Some? && p.manufacturerData.value != []
  }

  /** The device recorded for a peripheral that carries manufacturer data. */
  function DeviceOf(p: Peripheral): (d: BLEDevice)
    requires HasManufacturerData(p)
    ensures d.address == p.identifier && d.details == p.obj && d.name == DisplayName(p.name)
    ensures d.manufacturerData == ManufacturerMap(p.manufacturerData.value)
  {
    BLEDevice(p.identifier, DisplayName(p.name), p.obj, ManufacturerMap(p.manufacturerData.value))
  }

  /** The devices found, in scan order: only peripherals that carry manufacturer data are kept. */
  function FoundDevices(scan: seq<Peripheral>): (r: seq<BLEDevice>)
    ensures |r| <= |scan|
  {
    if scan == [] then []
    else
      var p := scan[|scan| - 1];
      FoundDevices(scan[..|scan| - 1]) + (if HasManufacturerData(p) then [DeviceOf(p)] else [])
  }

  /** The peripheral is recorded, as the device d. */
  predicate Yields(p: Peripheral, d: BLEDevice) {
    HasManufacturerData(p) && d == DeviceOf(p)
  }

  /** A device is found exactly when some scanned peripheral with manufacturer data yields it. */
  lemma FoundDevicesMembers(scan: seq<Peripheral>, d: BLEDevice)
    ensures d in FoundDevices(scan) <==> exists i :: 0 <= i < |scan| && Yields(scan[i], d)
  {
    if d in FoundDevices(scan) {
      FoundDevicesSound(scan, d);
    }
    forall i | 0 <= i < |scan| && Yields(scan[i], d)
      ensures d in FoundDevices(scan)
    {
      FoundDevicesComplete(scan, i);
    }
  }

  /** Every device found comes from a scanned peripheral with manufacturer data. */
  lemma {:induction false} FoundDevicesSound(scan: seq<Peripheral>, d: BLEDevice)
    requires d in FoundDevices(scan)
    ensures exists i :: 0 <= i < |scan| && Yields(scan[i], d)
  {
    var n := |scan| - 1;
    var earlier := scan[..n];
    assert FoundDevices(scan) == FoundDevices(earlier) + (if HasManufacturerData(scan[n]) then [DeviceOf(scan[n])] else []);
    if d in FoundDevices(earlier) {
      FoundDevicesSound(earlier, d);
      var i :| 0 <= i < n && Yields(earlier[i], d);
      assert scan[i] == earlier[i];
    } else {
      assert Yields(scan[n], d);
    }
  }

  /** Every scanned peripheral with manufacturer data is found. */
  lemma {:induction false} FoundDevicesComplete(scan: seq<Peripheral>, i: nat)
    requires i < |scan| && HasManufacturerData(scan[i])
    ensures DeviceOf(scan[i]) in FoundDevices(scan)
  {
    var n := |scan| - 1;
    var earlier := scan[..n];
    assert FoundDevices(scan) == FoundDevices(earlier) + (if HasManufacturerData(scan[n]) then [DeviceOf(scan[n])] else []);
    if i < n {
      assert earlier[i] == scan[i];
      FoundDevicesComplete(earlier, i);
    }
  }

  /** Every scanned peripheral without manufacturer data is dropped, whatever its address. */
  lemma {:induction false} FoundDevicesAllHaveData(scan: seq<Peripheral>)
    ensures forall d :: d in FoundDevices(scan) ==> d.manufacturerData != map[]
  {
    if scan != [] {
      FoundDevicesAllHaveData(scan[..|scan| - 1]);
    }
  }

  // ---------------------------------------------------------------------------
  // connect: choosing the device by address
  // ---------------------------------------------------------------------------

  /** Address equality after upper-casing both sides. */
  predicate SameAddress(a: string, b: string) {
    Upper(a) == Upper(b)
  }

  /** The devices whose address equals the sought one, ignoring case, in their original order. */
  function MatchingDevices(devices: seq<BLEDevice>, address: string): (r: seq<BLEDevice>)
    ensures |r| <= |devices|
    ensures forall d :: d in r ==> d in devices && SameAddress(d.address, address)
  {
    if devices == [] then []
    else
      var d := devices[|devices| - 1];
      MatchingDevices(devices[..|devices| - 1], address) + (if SameAddress(d.address, address) then [d] else [])
  }

  /** No device is dropped that matches. */
  lemma {:induction false} MatchingDevicesComplete(devices: seq<BLEDevice>, address: string)
    ensures forall d :: d in devices && SameAddress(d.address, address) ==> d in MatchingDevices(devices, address)
  {
    if devices != [] {
      var n := |devices| - 1;
      MatchingDevicesComplete(devices[..n], address);
      forall d | d in devices && SameAddress(d.address, address)
        ensures d in MatchingDevices(devices, address)
      {
        if d != devices[n] {
          var i :| 0 <= i < |devices| && devices[i] == d;
          assert devices[..n][i] == d;
        }
      }
    }
  }

  /**
    The device `connect` uses is the earliest one in scan order whose address matches:
    there is a match exactly when the filtered list is non-empty, and its head is the
    device at the first matching position.
   */
  lemma {:induction false} FirstMatch(devices: seq<BLEDevice>, address: string)
    ensures MatchingDevices(devices, address) != [] <==> exists i :: 0 <= i < |devices| && SameAddress(devices[i].address, address)
    ensures MatchingDevices(devices, address) != [] ==>
      exists i :: 0 <= i < |devices| && devices[i] == MatchingDevices(devices, address)[0] &&
        SameAddress(devices[i].address, address) &&
        forall j :: 0 <= j < i ==> !SameAddress(devices[j].address, address)
  {
    if devices != [] {
      var n := |devices| - 1;
      FirstMatch(devices[..n], address);
      var prefix := MatchingDevices(devices[..n], address);
      if prefix != [] {
        var i :| 0 <= i < n && devices[..n][i] == prefix[0] && SameAddress(devices[..n][i].address, address) &&
          forall j :: 0 <= j < i ==> !SameAddress(devices[..n][j].address, address);
        assert devices[i] == devices[..n][i];
        assert forall j :: 0 <= j < i ==> devices[j] == devices[..n][j];
      } else {
        assert forall j :: 0 <= j < n ==> devices[j] == devices[..n][j];
        if SameAddress(devices[n].address, address) {
          assert MatchingDevices(devices, address)[0] == devices[n];
        }
      }
    }
  }
}
