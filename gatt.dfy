/**
  The GATT tree as the CoreBluetooth adapter reports it, the wrapper entities the
  client builds from it, the append-only service collection they are added to, and
  the trace of adapter calls and collection additions one discovery pass produces.
 */
module Gatt {
  import opened Wrappers
  import opened Hex

  /** The identity of a native CoreBluetooth object (peripheral, service, characteristic, descriptor). */
  type NativeRef = nat

  /** The identity of a notification callback handed to the adapter. */
  type CallbackRef = nat

  // ---------------------------------------------------------------------------
  // What the adapter reports: discoverServices, discoverCharacteristics_, discoverDescriptors_
  // ---------------------------------------------------------------------------

  datatype CBDescriptor = CBDescriptor(handle: int, obj: NativeRef)

  /** A characteristic; `uuid` is the text of its CBUUID (`UUID().UUIDString()`). */
  datatype CBCharacteristic = CBCharacteristic(uuid: string, obj: NativeRef, descriptors: seq<CBDescriptor>)

  datatype CBService = CBService(uuid: string, obj: NativeRef, characteristics: seq<CBCharacteristic>)

  // ---------------------------------------------------------------------------
  // The wrappers added to the collection
  // ---------------------------------------------------------------------------

  datatype GattService = GattService(uuid: string, obj: NativeRef)

  datatype GattCharacteristic = GattCharacteristic(uuid: string, obj: NativeRef)

  /** A descriptor, tagged with the UUID of the characteristic it belongs to. */
  datatype GattDescriptor = GattDescriptor(handle: int, obj: NativeRef, characteristicUuid: string)

  function WrapService(s: CBService): GattService {
    GattService(s.uuid, s.obj)
  }

  function WrapCharacteristic(c: CBCharacteristic): GattCharacteristic {
    GattCharacteristic(c.uuid, c.obj)
  }

  function WrapDescriptor(d: CBDescriptor, characteristicUuid: string): GattDescriptor {
    GattDescriptor(d.handle, d.obj, characteristicUuid)
  }

  /**
    The service collection: append-only records of every service, characteristic and
    descriptor added. A characteristic is present under a key when some added
    characteristic carries that UUID, and a descriptor under a handle likewise; which
    entry a lookup returns when several share a key is left open.
   */
  class ServiceCollection {
    var services: seq<GattService>
    var characteristics: seq<GattCharacteristic>
    var descriptors: seq<GattDescriptor>

    constructor ()
      ensures services == [] && characteristics == [] && descriptors == []
    {
      services, characteristics, descriptors := [], [], [];
    }

    predicate HasCharacteristic(key: string)
      reads this
    {
      exists c :: c in characteristics && c.uuid == key
    }

    predicate HasDescriptor(handle: int)
      reads this
    {
      exists d :: d in descriptors && d.handle == handle
    }

    /**
      `get_characteristic`: some characteristic added under the key, or None when there
      is none. Which one is returned when several share the key is not promised.
     */
    method GetCharacteristic(key: string) returns (r: Option<GattCharacteristic>)
      ensures r.Some? <==> HasCharacteristic(key)
      ensures r.Some? ==> r.value in characteristics && r.value.uuid == key
    {
      var i := 0;
      while i < |characteristics|
        invariant 0 <= i <= |characteristics|
        invariant forall j :: 0 <= j < i ==> characteristics[j].uuid != key
      {
        if characteristics[i].uuid == key {
          return Some(characteristics[i]);
        }
        i := i + 1;
      }
      return None;
    }

    /** `get_descriptor`: some descriptor added under the handle, or None when there is none. */
    method GetDescriptor(handle: int) returns (r: Option<GattDescriptor>)
      ensures r.Some? <==> HasDescriptor(handle)
      ensures r.Some? ==> r.value in descriptors && r.value.handle == handle
    {
      var i := 0;
      while i < |descriptors|
        invariant 0 <= i <= |descriptors|
        invariant forall j :: 0 <= j < i ==> descriptors[j].handle != handle
      {
        if descriptors[i].handle == handle {
          return Some(descriptors[i]);
        }
        i := i + 1;
      }
      return None;
    }

    method AddService(s: GattService)
      modifies this
      ensures services == old(services) + [s]
      ensures characteristics == old(characteristics) && descriptors == old(descriptors)
    {
      services := services + [s];
    }

    method AddCharacteristic(c: GattCharacteristic)
      modifies this
      ensures characteristics == old(characteristics) + [c]
      ensures services == old(services) && descriptors == old(descriptors)
    {
      characteristics := characteristics + [c];
    }

    method AddDescriptor(d: GattDescriptor)
      modifies this
      ensures descriptors == old(descriptors) + [d]
      ensures services == old(services) && characteristics == old(characteristics)
    {
      descriptors := descriptors + [d];
    }
  }

  // ---------------------------------------------------------------------------
  // The trace: adapter calls and collection additions, in the order they happen
  // ---------------------------------------------------------------------------

  datatype Event =
    | Scan
    | ConnectPeripheral(peripheral: NativeRef)
    | DisconnectPeripheral
    | DiscoverServices
    | DiscoverCharacteristics(serviceObj: NativeRef)
    | DiscoverDescriptors(characteristicObj: NativeRef)
    | AddService(service: GattService)
    | AddCharacteristic(characteristic: GattCharacteristic)
    | AddDescriptor(descriptor: GattDescriptor)
    | ReadCharacteristic(target: NativeRef, useCached: bool)
    | ReadDescriptor(target: NativeRef, useCached: bool)
    | WriteCharacteristic(target: NativeRef, data: seq<byte>)
    | WriteDescriptor(target: NativeRef, data: seq<byte>)
    | StartNotify(target: NativeRef, callback: CallbackRef)
    | StopNotify(target: NativeRef)

  /** The services added, in trace order. */
  function AddedServices(t: seq<Event>): seq<GattService>
  {
    if t == [] then []
    else AddedServices(t[..|t| - 1]) + (if t[|t| - 1].AddService? then [t[|t| - 1].service] else [])
  }

  /** The characteristics added, in trace order. */
  function AddedCharacteristics(t: seq<Event>): seq<GattCharacteristic>
  {
    if t == [] then []
    else AddedCharacteristics(t[..|t| - 1]) +
         (if t[|t| - 1].AddCharacteristic? then [t[|t| - 1].characteristic] else [])
  }

  /** The descriptors added, in trace order. */
  function AddedDescriptors(t: seq<Event>): seq<GattDescriptor>
  {
    if t == [] then []
    else AddedDescriptors(t[..|t| - 1]) + (if t[|t| - 1].AddDescriptor? then [t[|t| - 1].descriptor] else [])
  }

  lemma {:induction false} AddedConcat(a: seq<Event>, b: seq<Event>)
    ensures AddedServices(a + b) == AddedServices(a) + AddedServices(b)
    ensures AddedCharacteristics(a + b) == AddedCharacteristics(a) + AddedCharacteristics(b)
    ensures AddedDescriptors(a + b) == AddedDescriptors(a) + AddedDescriptors(b)
    decreases |b|
  {
    if b == [] {
      assert a + b == a;
    } else {
      var n := |b| - 1;
      assert (a + b)[..|a + b| - 1] == a + b[..n];
      assert (a + b)[|a + b| - 1] == b[n];
      AddedConcat(a, b[..n]);
    }
  }

  /** Recording one more event adds what that event adds, and nothing else. */
  lemma AddedSnoc(t: seq<Event>, e: Event)
    ensures AddedServices(t + [e]) == AddedServices(t) + (if e.AddService? then [e.service] else [])
    ensures AddedCharacteristics(t + [e]) == AddedCharacteristics(t) + (if e.AddCharacteristic? then [e.characteristic] else [])
    ensures AddedDescriptors(t + [e]) == AddedDescriptors(t) + (if e.AddDescriptor? then [e.descriptor] else [])
  {
    assert (t + [e])[..|t|] == t;
  }

  /** What a single event adds. */
  lemma AddedOne(e: Event)
    ensures AddedServices([e]) == (if e.AddService? then [e.service] else [])
    ensures AddedCharacteristics([e]) == (if e.AddCharacteristic? then [e.characteristic] else [])
    ensures AddedDescriptors([e]) == (if e.AddDescriptor? then [e.descriptor] else [])
  {
    assert [e][..0] == [];
  }

  // ---------------------------------------------------------------------------
  // One discovery pass (get_services), as a specification of its trace
  // ---------------------------------------------------------------------------

  /** Adding a characteristic's descriptors, each tagged with the characteristic's UUID. */
  function DescriptorEvents(ds: seq<CBDescriptor>, owner: string): seq<Event>
  {
    if ds == [] then []
    else DescriptorEvents(ds[..|ds| - 1], owner) + [AddDescriptor(WrapDescriptor(ds[|ds| - 1], owner))]
  }

  /** Discovering a characteristic's descriptors, adding it, then adding its descriptors. */
  function CharacteristicEvents(c: CBCharacteristic): seq<Event>
  {
    [DiscoverDescriptors(c.obj), AddCharacteristic(WrapCharacteristic(c))] + DescriptorEvents(c.descriptors, c.uuid)
  }

  function CharacteristicsEvents(cs: seq<CBCharacteristic>): seq<Event>
  {
    if cs == [] then [] else CharacteristicsEvents(cs[..|cs| - 1]) + CharacteristicEvents(cs[|cs| - 1])
  }

  /** Discovering a service's characteristics, adding it, then handling each characteristic. */
  function ServiceEvents(s: CBService): seq<Event>
  {
    [DiscoverCharacteristics(s.obj), AddService(WrapService(s))] + CharacteristicsEvents(s.characteristics)
  }

  function ServicesEvents(ss: seq<CBService>): seq<Event>
  {
    if ss == [] then [] else ServicesEvents(ss[..|ss| - 1]) + ServiceEvents(ss[|ss| - 1])
  }

  /** A whole pass over the services the adapter returns. */
  function DiscoveryEvents(ss: seq<CBService>): seq<Event>
  {
    [DiscoverServices] + ServicesEvents(ss)
  }

  lemma DescriptorEventsSnoc(ds: seq<CBDescriptor>, k: nat, owner: string)
    requires k < |ds|
    ensures DescriptorEvents(ds[..k + 1], owner) == DescriptorEvents(ds[..k], owner) + [AddDescriptor(WrapDescriptor(ds[k], owner))]
  {
    assert ds[..k + 1][..k] == ds[..k];
  }

  lemma CharacteristicsEventsSnoc(cs: seq<CBCharacteristic>, j: nat)
    requires j < |cs|
    ensures CharacteristicsEvents(cs[..j + 1]) == CharacteristicsEvents(cs[..j]) + CharacteristicEvents(cs[j])
  {
    assert cs[..j + 1][..j] == cs[..j];
  }

  lemma ServicesEventsSnoc(ss: seq<CBService>, i: nat)
    requires i < |ss|
    ensures ServicesEvents(ss[..i + 1]) == ServicesEvents(ss[..i]) + ServiceEvents(ss[i])
  {
    assert ss[..i + 1][..i] == ss[..i];
  }

  // ---------------------------------------------------------------------------
  // What a pass adds, flattened in adapter order
  // ---------------------------------------------------------------------------

  function WrapServices(ss: seq<CBService>): (r: seq<GattService>)
    ensures |r| == |ss| && forall i :: 0 <= i < |ss| ==> r[i] == WrapService(ss[i])
  {
    seq(|ss|, i requires 0 <= i < |ss| => WrapService(ss[i]))
  }

  function WrapCharacteristics(cs: seq<CBCharacteristic>): (r: seq<GattCharacteristic>)
    ensures |r| == |cs| && forall i :: 0 <= i < |cs| ==> r[i] == WrapCharacteristic(cs[i])
  {
    seq(|cs|, i requires 0 <= i < |cs| => WrapCharacteristic(cs[i]))
  }

  function WrapDescriptors(ds: seq<CBDescriptor>, owner: string): (r: seq<GattDescriptor>)
    ensures |r| == |ds| && forall i :: 0 <= i < |ds| ==> r[i] == WrapDescriptor(ds[i], owner)
  {
    seq(|ds|, i requires 0 <= i < |ds| => WrapDescriptor(ds[i], owner))
  }

  /** Every characteristic of every service, services in order, characteristics in order. */
  function AllCharacteristics(ss: seq<CBService>): seq<GattCharacteristic>
  {
    if ss == [] then [] else AllCharacteristics(ss[..|ss| - 1]) + WrapCharacteristics(ss[|ss| - 1].characteristics)
  }

  /** Every descriptor of the characteristics cs, each tagged with its characteristic's UUID. */
  function CharacteristicsDescriptors(cs: seq<CBCharacteristic>): seq<GattDescriptor>
  {
    if cs == [] then []
    else CharacteristicsDescriptors(cs[..|cs| - 1]) + WrapDescriptors(cs[|cs| - 1].descriptors, cs[|cs| - 1].uuid)
  }

  function AllDescriptors(ss: seq<CBService>): seq<GattDescriptor>
  {
    if ss == [] then [] else AllDescriptors(ss[..|ss| - 1]) + CharacteristicsDescriptors(ss[|ss| - 1].characteristics)
  }

  lemma {:induction false} DescriptorEventsAdd(ds: seq<CBDescriptor>, owner: string)
    ensures AddedServices(DescriptorEvents(ds, owner)) == []
    ensures AddedCharacteristics(DescriptorEvents(ds, owner)) == []
    ensures AddedDescriptors(DescriptorEvents(ds, owner)) == WrapDescriptors(ds, owner)
  {
    if ds != [] {
      var n := |ds| - 1;
      DescriptorEventsAdd(ds[..n], owner);
      var e := AddDescriptor(WrapDescriptor(ds[n], owner));
      AddedConcat(DescriptorEvents(ds[..n], owner), [e]);
      AddedOne(e);
      assert WrapDescriptors(ds, owner) == WrapDescriptors(ds[..n], owner) + [WrapDescriptor(ds[n], owner)];
    }
  }

  lemma CharacteristicEventsAdd(c: CBCharacteristic)
    ensures AddedServices(CharacteristicEvents(c)) == []
    ensures AddedCharacteristics(CharacteristicEvents(c)) == [WrapCharacteristic(c)]
    ensures AddedDescriptors(CharacteristicEvents(c)) == WrapDescriptors(c.descriptors, c.uuid)
  {
    var head := [DiscoverDescriptors(c.obj), AddCharacteristic(WrapCharacteristic(c))];
    DescriptorEventsAdd(c.descriptors, c.uuid);
    AddedOne(head[0]);
    AddedOne(head[1]);
    AddedConcat([head[0]], [head[1]]);
    assert head == [head[0]] + [head[1]];
    AddedConcat(head, DescriptorEvents(c.descriptors, c.uuid));
  }

  lemma {:induction false} CharacteristicsEventsAdd(cs: seq<CBCharacteristic>)
    ensures AddedServices(CharacteristicsEvents(cs)) == []
    ensures AddedCharacteristics(CharacteristicsEvents(cs)) == WrapCharacteristics(cs)
    ensures AddedDescriptors(CharacteristicsEvents(cs)) == CharacteristicsDescriptors(cs)
  {
    if cs != [] {
      var n := |cs| - 1;
      CharacteristicsEventsAdd(cs[..n]);
      CharacteristicEventsAdd(cs[n]);
      AddedConcat(CharacteristicsEvents(cs[..n]), CharacteristicEvents(cs[n]));
      assert WrapCharacteristics(cs) == WrapCharacteristics(cs[..n]) + [WrapCharacteristic(cs[n])];
    }
  }

  lemma ServiceEventsAdd(s: CBService)
    ensures AddedServices(ServiceEvents(s)) == [WrapService(s)]
    ensures AddedCharacteristics(ServiceEvents(s)) == WrapCharacteristics(s.characteristics)
    ensures AddedDescriptors(ServiceEvents(s)) == CharacteristicsDescriptors(s.characteristics)
  {
    var head := [DiscoverCharacteristics(s.obj), AddService(WrapService(s))];
    CharacteristicsEventsAdd(s.characteristics);
    AddedOne(head[0]);
    AddedOne(head[1]);
    AddedConcat([head[0]], [head[1]]);
    assert head == [head[0]] + [head[1]];
    AddedConcat(head, CharacteristicsEvents(s.characteristics));
  }

  lemma {:induction false} ServicesEventsAdd(ss: seq<CBService>)
    ensures AddedServices(ServicesEvents(ss)) == WrapServices(ss)
    ensures AddedCharacteristics(ServicesEvents(ss)) == AllCharacteristics(ss)
    ensures AddedDescriptors(ServicesEvents(ss)) == AllDescriptors(ss)
  {
    if ss != [] {
      var n := |ss| - 1;
      ServicesEventsAdd(ss[..n]);
      ServiceEventsAdd(ss[n]);
      AddedConcat(ServicesEvents(ss[..n]), ServiceEvents(ss[n]));
      assert WrapServices(ss) == WrapServices(ss[..n]) + [WrapService(ss[n])];
    }
  }

  /**
    A discovery pass adds the services in the order the adapter returns them, then every
    characteristic in service order, and every descriptor tagged with the UUID of the
    characteristic it was discovered under.
   */
  lemma DiscoveryAdds(ss: seq<CBService>)
    ensures AddedServices(DiscoveryEvents(ss)) == WrapServices(ss)
    ensures AddedCharacteristics(DiscoveryEvents(ss)) == AllCharacteristics(ss)
    ensures AddedDescriptors(DiscoveryEvents(ss)) == AllDescriptors(ss)
  {
    ServicesEventsAdd(ss);
    AddedOne(DiscoverServices);
    AddedConcat([DiscoverServices], ServicesEvents(ss));
  }

  // ---------------------------------------------------------------------------
  // Ordering of a pass
  // ---------------------------------------------------------------------------

  /**
    Each service is added right after its characteristics were discovered, each
    characteristic right after its descriptors were discovered, and each descriptor right
    after its characteristic or a sibling descriptor, tagged with that characteristic's UUID.
   */
  ghost predicate Ordered(t: seq<Event>) {
    forall k :: 0 <= k < |t| ==> OrderedAt(t, k)
  }

  ghost predicate OrderedAt(t: seq<Event>, k: nat)
    requires k < |t|
  {
    && (t[k].AddService? ==> k > 0 && t[k - 1] == DiscoverCharacteristics(t[k].service.obj))
    && (t[k].AddCharacteristic? ==> k > 0 && t[k - 1] == DiscoverDescriptors(t[k].characteristic.obj))
    && (t[k].AddDescriptor? ==>
          k > 0 &&
          ((t[k - 1].AddCharacteristic? && t[k - 1].characteristic.uuid == t[k].descriptor.characteristicUuid) ||
           (t[k - 1].AddDescriptor? && t[k - 1].descriptor.characteristicUuid == t[k].descriptor.characteristicUuid)))
  }

  predicate IsAddition(e: Event) {
    e.AddService? || e.AddCharacteristic? || e.AddDescriptor?
  }

  lemma OrderedConcat(a: seq<Event>, b: seq<Event>)
    requires Ordered(a) && Ordered(b)
    requires b != [] ==> !IsAddition(b[0])
    ensures Ordered(a + b)
  {
    forall k | 0 <= k < |a + b|
      ensures OrderedAt(a + b, k)
    {
      if k < |a| {
        assert OrderedAt(a, k);
      } else {
        assert OrderedAt(b, k - |a|);
      }
    }
  }

  lemma {:induction false} CharacteristicEventsOrdered(c: CBCharacteristic, ds: seq<CBDescriptor>)
    requires |ds| <= |c.descriptors| && ds == c.descriptors[..|ds|]
    ensures Ordered([DiscoverDescriptors(c.obj), AddCharacteristic(WrapCharacteristic(c))] + DescriptorEvents(ds, c.uuid))
    decreases |ds|
  {
    var head := [DiscoverDescriptors(c.obj), AddCharacteristic(WrapCharacteristic(c))];
    if ds == [] {
      assert OrderedAt(head, 0) && OrderedAt(head, 1);
      assert head + DescriptorEvents(ds, c.uuid) == head;
    } else {
      var n := |ds| - 1;
      assert ds[..n] == c.descriptors[..n];
      CharacteristicEventsOrdered(c, ds[..n]);
      var t := head + DescriptorEvents(ds[..n], c.uuid);
      var e := AddDescriptor(WrapDescriptor(ds[n], c.uuid));
      assert head + DescriptorEvents(ds, c.uuid) == t + [e];
      assert t[|t| - 1].AddCharacteristic? || t[|t| - 1].AddDescriptor?;
      assert t[|t| - 1].AddCharacteristic? ==> t[|t| - 1].characteristic.uuid == c.uuid;
      assert t[|t| - 1].AddDescriptor? ==> t[|t| - 1].descriptor.characteristicUuid == c.uuid;
      forall k | 0 <= k < |t + [e]|
        ensures OrderedAt(t + [e], k)
      {
        if k < |t| {
          assert OrderedAt(t, k);
        }
      }
    }
  }

  lemma {:induction false} CharacteristicsEventsOrdered(cs: seq<CBCharacteristic>)
    ensures Ordered(CharacteristicsEvents(cs))
    ensures CharacteristicsEvents(cs) != [] ==> CharacteristicsEvents(cs)[0].DiscoverDescriptors?
  {
    if cs != [] {
      var n := |cs| - 1;
      CharacteristicsEventsOrdered(cs[..n]);
      CharacteristicEventsOrdered(cs[n], cs[n].descriptors);
      assert cs[n].descriptors[..|cs[n].descriptors|] == cs[n].descriptors;
      OrderedConcat(CharacteristicsEvents(cs[..n]), CharacteristicEvents(cs[n]));
    }
  }

  lemma ServiceEventsOrdered(s: CBService)
    ensures Ordered(ServiceEvents(s))
  {
    var head := [DiscoverCharacteristics(s.obj), AddService(WrapService(s))];
    assert OrderedAt(head, 0) && OrderedAt(head, 1);
    CharacteristicsEventsOrdered(s.characteristics);
    OrderedConcat(head, CharacteristicsEvents(s.characteristics));
  }

  lemma {:induction false} ServicesEventsOrdered(ss: seq<CBService>)
    ensures Ordered(ServicesEvents(ss))
    ensures ServicesEvents(ss) != [] ==> ServicesEvents(ss)[0].DiscoverCharacteristics?
  {
    if ss != [] {
      var n := |ss| - 1;
      ServicesEventsOrdered(ss[..n]);
      ServiceEventsOrdered(ss[n]);
      OrderedConcat(ServicesEvents(ss[..n]), ServiceEvents(ss[n]));
    }
  }

  /** A discovery pass keeps the nesting order of services, characteristics and descriptors. */
  lemma DiscoveryOrdered(ss: seq<CBService>)
    ensures Ordered(DiscoveryEvents(ss))
  {
    ServicesEventsOrdered(ss);
    assert OrderedAt([DiscoverServices], 0);
    OrderedConcat([DiscoverServices], ServicesEvents(ss));
  }

  /**
    Whatever came before, a pass appends to the collection exactly the wrapped tree, and
    the events it records are ordered.
   */
  lemma PassEffect(t0: seq<Event>, ss: seq<CBService>)
    ensures Ordered((t0 + DiscoveryEvents(ss))[|t0|..])
    ensures AddedServices(t0 + DiscoveryEvents(ss)) == AddedServices(t0) + WrapServices(ss)
    ensures AddedCharacteristics(t0 + DiscoveryEvents(ss)) == AddedCharacteristics(t0) + AllCharacteristics(ss)
    ensures AddedDescriptors(t0 + DiscoveryEvents(ss)) == AddedDescriptors(t0) + AllDescriptors(ss)
  {
    DiscoveryAdds(ss);
    DiscoveryOrdered(ss);
    AddedConcat(t0, DiscoveryEvents(ss));
    assert (t0 + DiscoveryEvents(ss))[|t0|..] == DiscoveryEvents(ss);
  }
}
