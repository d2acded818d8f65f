/**
  The CoreBluetooth GATT client: connecting by address, one discovery pass that fills the
  service collection, and the commands that resolve a characteristic by normalised UUID
  (or a descriptor by handle) and then make exactly one adapter call.

  The native adapter is a source of values given as parameters (the scan, the service
  tree, the bytes a read returns); each call made to it is recorded, in order, in the
  ghost `trace`, together with every addition to the service collection.
 */
module CoreBluetoothClient {
  import opened Wrappers
  import opened Hex
  import opened Uuid
  import opened Gatt
  import opened Advertisement

  /** What a characteristic lookup was keyed with. */
  datatype LookupKey =
    | UuidKey(uuid: string)
      /** the coroutine object `get_appropriate_uuid` returns when it is not awaited */
    | CoroutineKey

  /** The errors the client raises. */
  datatype Error =
    | InvalidUuid(text: string)                   // CBUUID refuses the text
    | CharacteristicNotFound(key: LookupKey)      // "Characteristic {} was not found!"
    | DescriptorNotFound(handle: int)             // "Descriptor {} was not found!"
    | DeviceNotFound(address: string)             // "Device with address {} was not found"

  class Client {
    const address: string
    /** The service collection this client fills (created empty by the base client). */
    const services: ServiceCollection
    /** `_services`: the collection a finished discovery pass is remembered in, null until then. */
    var cachedServices: ServiceCollection?
    var servicesResolved: bool
    /** `_device_info`: the native peripheral chosen by `connect`. */
    var deviceInfo: Option<NativeRef>
    ghost var trace: seq<Event>

    /**
      The collection holds exactly what the trace records as added, in order, and the
      collection remembered by `get_services`, if any, is this client's own.
     */
    ghost predicate Valid()
      reads this, services
    {
      && (cachedServices == null || cachedServices == services)
      && services.services == AddedServices(trace)
      && services.characteristics == AddedCharacteristics(trace)
      && services.descriptors == AddedDescriptors(trace)
    }

    constructor (address: string)
      ensures Valid()
      ensures this.address == address && fresh(services)
      ensures services.services == [] && services.characteristics == [] && services.descriptors == []
      ensures cachedServices == null && !servicesResolved && deviceInfo == None && trace == []
    {
      this.address := address;
      services := new ServiceCollection();
      cachedServices := null;
      servicesResolved := false;
      deviceInfo := None;
      trace := [];
    }

    /** Records an adapter call that adds nothing to the collection. */
    ghost method Record(e: Event)
      requires Valid() && !IsAddition(e)
      modifies this`trace
      ensures Valid() && trace == old(trace) + [e]
    {
      AddedSnoc(trace, e);
      trace := trace + [e];
    }

    /** `self.services.add_service(...)`, recorded. */
    method CollectService(s: GattService)
      requires Valid()
      modifies this`trace, services
      ensures Valid() && trace == old(trace) + [Event.AddService(s)]
    {
      services.AddService(s);
      AddedSnoc(trace, Event.AddService(s));
      trace := trace + [Event.AddService(s)];
    }

    /** `self.services.add_characteristic(...)`, recorded. */
    method CollectCharacteristic(c: GattCharacteristic)
      requires Valid()
      modifies this`trace, services
      ensures Valid() && trace == old(trace) + [Event.AddCharacteristic(c)]
    {
      services.AddCharacteristic(c);
      AddedSnoc(trace, Event.AddCharacteristic(c));
      trace := trace + [Event.AddCharacteristic(c)];
    }

    /** `self.services.add_descriptor(...)`, recorded. */
    method CollectDescriptor(d: GattDescriptor)
      requires Valid()
      modifies this`trace, services
      ensures Valid() && trace == old(trace) + [Event.AddDescriptor(d)]
    {
      services.AddDescriptor(d);
      AddedSnoc(trace, Event.AddDescriptor(d));
      trace := trace + [Event.AddDescriptor(d)];
    }

    // -------------------------------------------------------------------------
    // Scanning and connecting
    // -------------------------------------------------------------------------

    /** `scan_for_devices`: one scan, then the devices that carry manufacturer data, in scan order. */
    method ScanForDevices(scan: seq<Peripheral>) returns (found: seq<BLEDevice>)
      requires Valid()
      modifies this`trace
      ensures Valid() && trace == old(trace) + [Event.Scan]
      ensures found == FoundDevices(scan)
    {
      Record(Event.Scan);
      found := [];
      for i := 0 to |scan|
        invariant found == FoundDevices(scan[..i])
      {
        assert scan[..i + 1][..i] == scan[..i];
        var peripheral := scan[i];
        if HasManufacturerData(peripheral) {
          found := found + [DeviceOf(peripheral)];
        }
      }
      assert scan[..|scan|] == scan;
    }

    /**
      `connect` as written: scan, keep the devices whose address equals this client's
      ignoring case, connect to the first of them, then call `get_services`, which, as
      written, never remembers its collection. With no match it fails before any
      connection attempt.
     */
    method ConnectAsWritten(scan: seq<Peripheral>, remote: seq<CBService>) returns (r: Result<bool, Error>)
      requires Valid()
      modifies this, services
      ensures Valid()
      ensures cachedServices == old(cachedServices)
      ensures MatchingDevices(FoundDevices(scan), address) == [] ==>
        && r == Failure(DeviceNotFound(address))
        && trace == old(trace) + [Event.Scan]
        && deviceInfo == old(deviceInfo)
        && servicesResolved == old(servicesResolved)
      ensures MatchingDevices(FoundDevices(scan), address) != [] ==>
        var chosen := MatchingDevices(FoundDevices(scan), address)[0].details;
        && r == Success(true)
        && deviceInfo == Some(chosen)
        && servicesResolved == (old(cachedServices) == null || old(servicesResolved))
        && trace == old(trace) + [Event.Scan, ConnectPeripheral(chosen)] +
                    (if old(cachedServices) == null then DiscoveryEvents(remote) else [])
    {
      var devices := ScanForDevices(scan);
      var sought := MatchingDevices(devices, address);
      if |sought| > 0 {
        deviceInfo := Some(sought[0].details);
      } else {
        return Failure(DeviceNotFound(address));
      }
      ghost var t1 := trace;
      ghost var tail := if cachedServices == null then DiscoveryEvents(remote) else [];
      var chosen := sought[0].details;
      Record(ConnectPeripheral(chosen));
      var _ := GetServicesAsWritten(remote);
      assert trace == t1 + [ConnectPeripheral(chosen)] + tail;
      assert t1 + [ConnectPeripheral(chosen)] == old(trace) + [Event.Scan, ConnectPeripheral(chosen)];
      return Success(true);
    }

    /**
      `connect` with the collection remembered by `get_services`: the same scan and
      choice, and the first connection's discovery pass is remembered.
     */
    method Connect(scan: seq<Peripheral>, remote: seq<CBService>) returns (r: Result<bool, Error>)
      requires Valid()
      modifies this, services
      ensures Valid()
      ensures MatchingDevices(FoundDevices(scan), address) == [] ==>
        && r == Failure(DeviceNotFound(address))
        && trace == old(trace) + [Event.Scan]
        && deviceInfo == old(deviceInfo)
        && cachedServices == old(cachedServices)
        && servicesResolved == old(servicesResolved)
      ensures MatchingDevices(FoundDevices(scan), address) != [] ==>
        var chosen := MatchingDevices(FoundDevices(scan), address)[0].details;
        && r == Success(true)
        && deviceInfo == Some(chosen)
        && cachedServices == (if old(cachedServices) == null then services else old(cachedServices))
        && servicesResolved == (old(cachedServices) == null || old(servicesResolved))
        && trace == old(trace) + [Event.Scan, ConnectPeripheral(chosen)] +
                    (if old(cachedServices) == null then DiscoveryEvents(remote) else [])
    {
      var devices := ScanForDevices(scan);
      var sought := MatchingDevices(devices, address);
      if |sought| > 0 {
        deviceInfo := Some(sought[0].details);
      } else {
        return Failure(DeviceNotFound(address));
      }
      ghost var t1 := trace;
      ghost var tail := if cachedServices == null then DiscoveryEvents(remote) else [];
      var chosen := sought[0].details;
      Record(ConnectPeripheral(chosen));
      var _ := GetServices(remote);
      assert trace == t1 + [ConnectPeripheral(chosen)] + tail;
      assert t1 + [ConnectPeripheral(chosen)] == old(trace) + [Event.Scan, ConnectPeripheral(chosen)];
      return Success(true);
    }

    /** `disconnect`: one adapter call, then True. */
    method Disconnect() returns (r: bool)
      requires Valid()
      modifies this`trace
      ensures Valid() && trace == old(trace) + [DisconnectPeripheral]
      ensures r
    {
      Record(DisconnectPeripheral);
      return true;
    }

    // -------------------------------------------------------------------------
    // Discovery
    // -------------------------------------------------------------------------

    /**
      `get_services` with the remembered collection stored once the pass is over: the
      first call walks the adapter's tree (`remote`) and adds every service,
      characteristic and descriptor; later calls return the remembered collection
      without touching the adapter.
     */
    method GetServices(remote: seq<CBService>) returns (r: ServiceCollection)
      requires Valid()
      modifies this, services
      ensures Valid()
      ensures deviceInfo == old(deviceInfo)
      ensures old(cachedServices) != null ==>
        r == old(cachedServices) && cachedServices == old(cachedServices) &&
        trace == old(trace) && servicesResolved == old(servicesResolved)
      ensures old(cachedServices) == null ==>
        r == services && cachedServices == services && servicesResolved &&
        trace == old(trace) + DiscoveryEvents(remote)
    {
      if cachedServices != null {
        return cachedServices;
      }
      Discover(remote);
      servicesResolved := true;
      cachedServices := services;
      return services;
    }

    /**
      `get_services` as written: `_services` is never assigned, so the guard never fires
      and every call walks the adapter's tree again.
     */
    method GetServicesAsWritten(remote: seq<CBService>) returns (r: ServiceCollection)
      requires Valid()
      modifies this, services
      ensures Valid()
      ensures deviceInfo == old(deviceInfo) && cachedServices == old(cachedServices)
      ensures old(cachedServices) != null ==>
        r == old(cachedServices) && trace == old(trace) && servicesResolved == old(servicesResolved)
      ensures old(cachedServices) == null ==>
        r == services && servicesResolved && trace == old(trace) + DiscoveryEvents(remote)
    {
      if cachedServices != null {
        return cachedServices;
      }
      Discover(remote);
      servicesResolved := true;
      return services;
    }

    /** Two calls on a fresh client, as written: the adapter's tree is walked twice. */
    method GetServicesTwiceAsWritten(remote: seq<CBService>)
      requires Valid() && cachedServices == null
      modifies this, services
      ensures Valid()
      ensures trace == old(trace) + DiscoveryEvents(remote) + DiscoveryEvents(remote)
    {
      var _ := GetServicesAsWritten(remote);
      var _ := GetServicesAsWritten(remote);
    }

    /**
      `connect` followed by `get_services` on a fresh client, as written: the device's
      tree is walked once by `connect` and once more by `get_services`.
     */
    method ConnectThenGetServicesAsWritten(scan: seq<Peripheral>, remote: seq<CBService>)
      returns (r: Result<bool, Error>)
      requires Valid() && cachedServices == null
      modifies this, services
      ensures Valid()
      ensures r.Success? <==> MatchingDevices(FoundDevices(scan), address) != []
      ensures r.Success? ==>
        var chosen := MatchingDevices(FoundDevices(scan), address)[0].details;
        trace == old(trace) + [Event.Scan, ConnectPeripheral(chosen)] +
                 DiscoveryEvents(remote) + DiscoveryEvents(remote)
    {
      r := ConnectAsWritten(scan, remote);
      if r.Success? {
        var _ := GetServicesAsWritten(remote);
      }
    }

    /**
      `connect` followed by `get_services` on a fresh client, with the collection
      remembered: the tree is walked once, and `get_services` returns the remembered
      collection.
     */
    method ConnectThenGetServices(scan: seq<Peripheral>, remote: seq<CBService>)
      returns (r: Result<bool, Error>)
      requires Valid() && cachedServices == null
      modifies this, services
      ensures Valid()
      ensures r.Success? <==> MatchingDevices(FoundDevices(scan), address) != []
      ensures r.Success? ==>
        var chosen := MatchingDevices(FoundDevices(scan), address)[0].details;
        trace == old(trace) + [Event.Scan, ConnectPeripheral(chosen)] + DiscoveryEvents(remote)
    {
      r := Connect(scan, remote);
      if r.Success? {
        var _ := GetServices(remote);
      }
    }

    /** Two calls on a fresh client, with the collection remembered: the tree is walked once. */
    method GetServicesTwice(remote: seq<CBService>)
      requires Valid() && cachedServices == null
      modifies this, services
      ensures Valid()
      ensures trace == old(trace) + DiscoveryEvents(remote)
    {
      var _ := GetServices(remote);
      var _ := GetServices(remote);
    }

    /**
      The discovery pass itself: services in adapter order, each handled by
      DiscoverService. Afterwards the collection has gained exactly the wrapped tree,
      flattened in order, and the pass is ordered.
     */
    method Discover(remote: seq<CBService>)
      requires Valid()
      modifies this`trace, services
      ensures Valid()
      ensures trace == old(trace) + DiscoveryEvents(remote)
      ensures Ordered(trace[|old(trace)|..])
      ensures services.services == old(services.services) + WrapServices(remote)
      ensures services.characteristics == old(services.characteristics) + AllCharacteristics(remote)
      ensures services.descriptors == old(services.descriptors) + AllDescriptors(remote)
    {
      ghost var t0 := trace;
      Record(DiscoverServices);
      DiscoverServicesInOrder(remote);
      PassEffect(t0, remote);
    }

    /** The services, in the order the adapter returned them. */
    method DiscoverServicesInOrder(remote: seq<CBService>)
      requires Valid()
      modifies this`trace, services
      ensures Valid()
      ensures trace == old(trace) + ServicesEvents(remote)
    {
      ghost var t0 := trace;
      for i := 0 to |remote|
        invariant Valid()
        invariant trace == t0 + ServicesEvents(remote[..i])
      {
        ServicesEventsSnoc(remote, i);
        DiscoverService(remote[i]);
      }
      assert remote[..|remote|] == remote;
    }

    /** One service: discover its characteristics, add it, then handle each characteristic in order. */
    method DiscoverService(service: CBService)
      requires Valid()
      modifies this`trace, services
      ensures Valid()
      ensures trace == old(trace) + ServiceEvents(service)
    {
      Record(DiscoverCharacteristics(service.obj));
      var characteristics := service.characteristics;
      CollectService(WrapService(service));
      DiscoverEach(characteristics);
    }

    /** The characteristics of one service, in the order the adapter returned them. */
    method DiscoverEach(characteristics: seq<CBCharacteristic>)
      requires Valid()
      modifies this`trace, services
      ensures Valid()
      ensures trace == old(trace) + CharacteristicsEvents(characteristics)
    {
      ghost var t0 := trace;
      for j := 0 to |characteristics|
        invariant Valid()
        invariant trace == t0 + CharacteristicsEvents(characteristics[..j])
      {
        CharacteristicsEventsSnoc(characteristics, j);
        DiscoverCharacteristic(characteristics[j]);
      }
      assert characteristics[..|characteristics|] == characteristics;
    }

    /**
      One characteristic: discover its descriptors, add it, then add each descriptor
      tagged with the characteristic's UUID.
     */
    method DiscoverCharacteristic(characteristic: CBCharacteristic)
      requires Valid()
      modifies this`trace, services
      ensures Valid()
      ensures trace == old(trace) + CharacteristicEvents(characteristic)
    {
      Record(DiscoverDescriptors(characteristic.obj));
      var descriptors := characteristic.descriptors;
      CollectCharacteristic(WrapCharacteristic(characteristic));
      ghost var t1 := trace;
      for k := 0 to |descriptors|
        invariant Valid()
        invariant trace == t1 + DescriptorEvents(descriptors[..k], characteristic.uuid)
      {
        DescriptorEventsSnoc(descriptors, k, characteristic.uuid);
        CollectDescriptor(WrapDescriptor(descriptors[k], characteristic.uuid));
      }
      assert descriptors[..|descriptors|] == descriptors;
    }

    // -------------------------------------------------------------------------
    // Commands on a characteristic
    // -------------------------------------------------------------------------

    /**
      After a characteristic command under `key`: when the collection holds a
      characteristic with that key, exactly one adapter call `call` was made on the
      native object of such a characteristic; otherwise none was made.
     */
    ghost predicate CharacteristicDispatch(key: string, t0: seq<Event>, call: NativeRef -> Event)
      reads this, services
    {
      if services.HasCharacteristic(key) then
        exists c :: c in services.characteristics && c.uuid == key && trace == t0 + [call(c.obj)]
      else
        trace == t0
    }

    /** The error a characteristic command raises for `uuid`, if any. */
    ghost function CharacteristicError(uuid: string): Option<Error>
      reads this, services
    {
      match Normalize(uuid)
      case None => Some(InvalidUuid(uuid))
      case Some(key) => if services.HasCharacteristic(key) then None else Some(CharacteristicNotFound(UuidKey(key)))
    }

    /** Resolves `uuid` to a characteristic of the collection, or to the error the command raises. */
    method ResolveCharacteristic(uuid: string) returns (r: Result<GattCharacteristic, Error>)
      ensures r.Failure? <==> CharacteristicError(uuid).Some?
      ensures r.Failure? ==> r.error == CharacteristicError(uuid).value
      ensures r.Success? ==> r.value in services.characteristics && r.value.uuid == Normalize(uuid).value
    {
      var key := Normalize(uuid);
      if key.None? {
        return Failure(InvalidUuid(uuid));
      }
      var characteristic := services.GetCharacteristic(key.value);
      if characteristic.None? {
        return Failure(CharacteristicNotFound(UuidKey(key.value)));
      }
      return Success(characteristic.value);
    }

    /** `read_gatt_char`: the bytes the adapter returns for the resolved characteristic. */
    method ReadGattChar(uuid: string, useCached: bool, reply: seq<byte>) returns (r: Result<seq<byte>, Error>)
      requires Valid()
      modifies this`trace
      ensures Valid()
      ensures r.Failure? <==> CharacteristicError(uuid).Some?
      ensures r.Failure? ==> r.error == CharacteristicError(uuid).value && trace == old(trace)
      ensures r.Success? ==>
        r.value == reply &&
        CharacteristicDispatch(Normalize(uuid).value, old(trace), (o: NativeRef) => ReadCharacteristic(o, useCached))
    {
      var characteristic := ResolveCharacteristic(uuid);
      if characteristic.Failure? {
        return Failure(characteristic.error);
      }
      Record(ReadCharacteristic(characteristic.value.obj, useCached));
      return Success(reply);
    }

    /** `write_gatt_char`: the data goes to the resolved characteristic; `response` is not forwarded. */
    method WriteGattChar(uuid: string, data: seq<byte>, response: bool) returns (r: Result<(), Error>)
      requires Valid()
      modifies this`trace
      ensures Valid()
      ensures r.Failure? <==> CharacteristicError(uuid).Some?
      ensures r.Failure? ==> r.error == CharacteristicError(uuid).value && trace == old(trace)
      ensures r.Success? ==> CharacteristicDispatch(Normalize(uuid).value, old(trace), (o: NativeRef) => WriteCharacteristic(o, data))
    {
      var characteristic := ResolveCharacteristic(uuid);
      if characteristic.Failure? {
        return Failure(characteristic.error);
      }
      Record(WriteCharacteristic(characteristic.value.obj, data));
      return Success(());
    }

    /** `start_notify`: the callback is handed to the adapter for the resolved characteristic. */
    method StartNotify(uuid: string, callback: CallbackRef) returns (r: Result<(), Error>)
      requires Valid()
      modifies this`trace
      ensures Valid()
      ensures r.Failure? <==> CharacteristicError(uuid).Some?
      ensures r.Failure? ==> r.error == CharacteristicError(uuid).value && trace == old(trace)
      ensures r.Success? ==> CharacteristicDispatch(Normalize(uuid).value, old(trace), (o: NativeRef) => Event.StartNotify(o, callback))
    {
      var characteristic := ResolveCharacteristic(uuid);
      if characteristic.Failure? {
        return Failure(characteristic.error);
      }
      Record(Event.StartNotify(characteristic.value.obj, callback));
      return Success(());
    }

    /** `stop_notify` with the normalisation awaited: the same lookup as the other commands. */
    method StopNotify(uuid: string) returns (r: Result<(), Error>)
      requires Valid()
      modifies this`trace
      ensures Valid()
      ensures r.Failure? <==> CharacteristicError(uuid).Some?
      ensures r.Failure? ==> r.error == CharacteristicError(uuid).value && trace == old(trace)
      ensures r.Success? ==> CharacteristicDispatch(Normalize(uuid).value, old(trace), (o: NativeRef) => Event.StopNotify(o))
    {
      var characteristic := ResolveCharacteristic(uuid);
      if characteristic.Failure? {
        return Failure(characteristic.error);
      }
      Record(Event.StopNotify(characteristic.value.obj));
      return Success(());
    }

    /**
      The collection's characteristic lookup for any key the client may pass: a stored
      characteristic is held under its UUID text, and nothing is held under anything else.
     */
    method LookupCharacteristic(key: LookupKey) returns (r: Option<GattCharacteristic>)
      ensures r.Some? <==> exists c :: c in services.characteristics && UuidKey(c.uuid) == key
      ensures r.Some? ==> r.value in services.characteristics && UuidKey(r.value.uuid) == key
    {
      match key
      case UuidKey(text) =>
        r := services.GetCharacteristic(text);
      case CoroutineKey =>
        r := None;
    }

    /**
      `stop_notify` as written: the normalisation is called without being awaited, so
      nothing about the UUID is checked and the lookup is keyed with the coroutine object.
      No characteristic is held under it, so the command fails and never reaches the
      adapter.
     */
    method StopNotifyAsWritten(uuid: string) returns (r: Result<(), Error>)
      requires Valid()
      modifies this`trace
      ensures Valid() && trace == old(trace)
      ensures r.Failure? && r.error == CharacteristicNotFound(CoroutineKey)
    {
      var key := CoroutineKey;
      var characteristic := LookupCharacteristic(key);
      if characteristic.Some? {
        // no characteristic is held under a coroutine key
        assert false;
      }
      return Failure(CharacteristicNotFound(key));
    }

    /**
      The discrepancy: for a UUID whose characteristic the collection holds, `stop_notify`
      as written fails, while the awaited version stops notifications on it.
     */
    method StopNotifyDiscrepancy(uuid: string) returns (asWritten: Result<(), Error>, corrected: Result<(), Error>)
      requires Valid()
      requires Normalize(uuid).Some? && services.HasCharacteristic(Normalize(uuid).value)
      modifies this`trace
      ensures Valid()
      ensures asWritten.Failure? && corrected.Success?
      ensures CharacteristicDispatch(Normalize(uuid).value, old(trace), (o: NativeRef) => Event.StopNotify(o))
    {
      asWritten := StopNotifyAsWritten(uuid);
      corrected := StopNotify(uuid);
    }

    // -------------------------------------------------------------------------
    // Commands on a descriptor
    // -------------------------------------------------------------------------

    ghost predicate DescriptorDispatch(handle: int, t0: seq<Event>, call: NativeRef -> Event)
      reads this, services
    {
      if services.HasDescriptor(handle) then
        exists d :: d in services.descriptors && d.handle == handle && trace == t0 + [call(d.obj)]
      else
        trace == t0
    }

    /** `read_gatt_descriptor`: the bytes the adapter returns for the descriptor with that handle. */
    method ReadGattDescriptor(handle: int, useCached: bool, reply: seq<byte>) returns (r: Result<seq<byte>, Error>)
      requires Valid()
      modifies this`trace
      ensures Valid()
      ensures r.Failure? <==> !services.HasDescriptor(handle)
      ensures r.Failure? ==> r.error == DescriptorNotFound(handle) && trace == old(trace)
      ensures r.Success? ==> r.value == reply && DescriptorDispatch(handle, old(trace), (o: NativeRef) => ReadDescriptor(o, useCached))
    {
      var descriptor := services.GetDescriptor(handle);
      if descriptor.None? {
        return Failure(DescriptorNotFound(handle));
      }
      Record(ReadDescriptor(descriptor.value.obj, useCached));
      return Success(reply);
    }

    /** `write_gatt_descriptor`: the data goes to the descriptor with that handle. */
    method WriteGattDescriptor(handle: int, data: seq<byte>) returns (r: Result<(), Error>)
      requires Valid()
      modifies this`trace
      ensures Valid()
      ensures r.Failure? <==> !services.HasDescriptor(handle)
      ensures r.Failure? ==> r.error == DescriptorNotFound(handle) && trace == old(trace)
      ensures r.Success? ==> DescriptorDispatch(handle, old(trace), (o: NativeRef) => WriteDescriptor(o, data))
    {
      var descriptor := services.GetDescriptor(handle);
      if descriptor.None? {
        return Failure(DescriptorNotFound(handle));
      }
      Record(WriteDescriptor(descriptor.value.obj, data));
      return Success(());
    }
  }
}
