# bleak: CoreBluetooth GATT client and base GATT server, modelled in Dafny

This project models the core of bleak's macOS (CoreBluetooth) GATT client and the
abstract base of its GATT servers, and proves what they promise.

- **UUID normalisation** (`Uuid`, with the arithmetic in `Hex`). Before every
  characteristic lookup the client turns UUID text into a key. Four-character text is
  upper-cased. Any other text is read, in its canonical 36-character form, as the
  big-endian 128-bit integer its hex digits spell, and tested
  against the mask `0000FFFF-0000-1000-8000-00805F9B34FB` with Python's `&`. When every
  set bit lies inside the mask, the key is the 16-bit field `_uuid[4:8]` upper-cased;
  otherwise it is the whole text upper-cased. This is the Base UUID shortening of the
  Bluetooth Core Specification, Vol 3, Part B, section 2.5.1, done as a bit-subset test.
  `&` is modelled as a recursive function on naturals, and the test is proved to work
  one hex digit at a time.
- **Scan results** (`Advertisement`). A scan turns peripherals into devices. A missing
  or empty name becomes "Unknown". The company identifier is the first two octets of
  the manufacturer data, little-endian. The rest of the data is rendered as two
  lower-case hex digits per octet. Only peripherals that carry manufacturer data become
  devices. `connect` keeps the devices whose address equals the client's ignoring case,
  and uses the first of them.
- **Service tree** (`Gatt`). The adapter reports services, their characteristics and
  their descriptors. The client wraps each and adds it to an append-only service
  collection. Specification functions give the events of one discovery pass and what it
  adds.
- **The client** (`CoreBluetoothClient.Client`). This is a class whose ghost `trace`
  records, in order, every adapter call and every addition to the collection. Its
  invariant `Valid()` says that the collection holds exactly what the trace records as
  added. Discovery is three nested loops, written as one method per level. Each command
  resolves its target (a characteristic by normalised UUID, a descriptor by handle) and
  then makes exactly one adapter call. A missing target fails before any adapter call.
- **The server base** (`Server.BaseServer`). Its constructor creates an empty service
  collection. Used as an async context manager, it calls `start` once on entry and
  returns itself, and calls `stop` once on exit without suppressing the body's
  exception. The backend's `start`, `stop` and `add_service` are hooks. What a hook
  does, returning a flag or raising, is a parameter, and each call is recorded in a
  ghost `calls` trace. A `start` that raises leaves the body and `stop` unrun. A `stop`
  that raises replaces the body's exception.

The native adapter is not modelled. The values it supplies are parameters: the scan
results, the service tree (`remote`), the bytes a read returns and the callback of a
notification. Each call made to the adapter is one atomic event in the trace.

Where the documented design and the code differ, the model follows the code: the code
has no "not connected" error. Where the code is evidently wrong (see Findings), the model
has a member that behaves as written and a corrected one. For discovery this means two
versions. `ConnectAsWritten` and `GetServicesAsWritten` never remember the collection,
as the code does not. `Connect` and `GetServices` remember it after the first pass.

## Model

| member | source | states |
|---|---|---|
| Uuid.UuidToInt | bleak/backends/corebluetooth/client.py:268-273 | UUID text has an integer exactly when it is canonical 36-character text; the integer is below 2^128 |
| Uuid.IntToUuid | bleak/backends/corebluetooth/client.py:275-279 | an integer prints exactly when 0 <= i < 2^128 (`to_bytes(length=16)`), as canonical upper-case text |
| Uuid.IntToUuidToInt | bleak/backends/corebluetooth/client.py:268-279 | printing an integer and reading it back gives the integer |
| Uuid.UuidToIntToUuid | bleak/backends/corebluetooth/client.py:268-279 | reading text and printing it back gives the text upper-cased |
| Uuid.UuidToIntUpper | bleak/backends/corebluetooth/client.py:268-273 | upper-casing the text does not change its integer |
| Uuid.MaskInt | bleak/backends/corebluetooth/client.py:262-263 | `test_int` is the integer of the mask text, whose 32 digits are 0000FFFF followed by the Base UUID tail |
| Uuid.Is16BitCompatible | bleak/backends/corebluetooth/client.py:261-266 | the test has a verdict exactly for canonical text |
| Hex.AndSubsetDigitwise | bleak/backends/corebluetooth/client.py:265-266 | for numbers of equal digit length, `a & b == a` holds exactly when it holds for every hex digit |
| Uuid.Is16BitCompatibleDigitwise | bleak/backends/corebluetooth/client.py:261-266 | a UUID passes exactly when each of its 32 digits is a bit-subset of the mask's digit |
| Uuid.BaseUuidCompatible | bleak/backends/corebluetooth/client.py:261-266 | every `0000xxxx-0000-1000-8000-00805F9B34FB` passes |
| Uuid.NilUuidCompatible | bleak/backends/corebluetooth/client.py:261-266 | the all-zero UUID passes too: the test is bit-subset, not equality |
| Uuid.OutsideMaskIncompatible | bleak/backends/corebluetooth/client.py:261-266 | a set bit outside the mask, in any digit, fails the test |
| Uuid.Normalize | bleak/backends/corebluetooth/client.py:252-259 | a key exists exactly for four-character or canonical text; every key is upper-case and 4 or 36 characters long |
| Uuid.NormalizeShort | bleak/backends/corebluetooth/client.py:253-254 | four-character text is returned upper-cased |
| Uuid.NormalizeCompatible | bleak/backends/corebluetooth/client.py:256-257 | a UUID that passes the test becomes `_uuid[4:8]` upper-cased, four hex characters |
| Uuid.NormalizeBaseUuid | bleak/backends/corebluetooth/client.py:256-257 | a Base-range UUID becomes its 16-bit field upper-cased |
| Uuid.NormalizeOutsideBase | bleak/backends/corebluetooth/client.py:259 | a UUID that fails the test is returned upper-cased in full |
| Uuid.NormalizeIdempotent | bleak/backends/corebluetooth/client.py:252-259 | normalising a key again gives the same key |
| Uuid.ShortAndFullFormAgree | bleak/backends/corebluetooth/client.py:252-259 | a 16-bit UUID and its Base UUID give the same key, so either form addresses a characteristic |
| Uuid.NormalizeFullFormRoundTrip | bleak/backends/corebluetooth/client.py:252-259 | for a UUID that passes, the Base UUID of its key normalises to the same key |
| Advertisement.DisplayName | bleak/backends/corebluetooth/client.py:86 | a missing or empty name becomes "Unknown", any other name is kept |
| Advertisement.ManufacturerId | bleak/backends/corebluetooth/client.py:93 | the identifier is below 65536; its low octet is data[0] and its high octet data[1] (data[0] alone for one octet) |
| Advertisement.ByteHexDigits | bleak/backends/corebluetooth/client.py:94 | an octet renders as two lower-case hex digits whose value is the octet |
| Advertisement.ManufacturerValue | bleak/backends/corebluetooth/client.py:94 | the value text has 2·(n−2) characters for n octets, and is empty below two octets |
| Advertisement.HexStringIsLowerHex | bleak/backends/corebluetooth/client.py:94 | every character of the value text is a lower-case hex digit |
| Advertisement.ParseHexString | bleak/backends/corebluetooth/client.py:94 | decoding the value text gives back the octets, so the rendering loses nothing |
| Advertisement.ManufacturerMap | bleak/backends/corebluetooth/client.py:95-97 | the device's dictionary has the identifier as its only key, mapped to the value text |
| Advertisement.DeviceOf | bleak/backends/corebluetooth/client.py:85-99 | a device carries the peripheral's identifier text, display name, native handle and manufacturer dictionary |
| Advertisement.FoundDevicesMembers | bleak/backends/corebluetooth/client.py:84-101 | a device is found exactly when some scanned peripheral with manufacturer data yields it |
| Advertisement.FoundDevicesSound | bleak/backends/corebluetooth/client.py:84-101 | every device found comes from a scanned peripheral with manufacturer data |
| Advertisement.FoundDevicesComplete | bleak/backends/corebluetooth/client.py:84-101 | every scanned peripheral with manufacturer data is found |
| Advertisement.FoundDevicesAllHaveData | bleak/backends/corebluetooth/client.py:92-99 | no device is found without manufacturer data |
| Advertisement.MatchingDevices | bleak/backends/corebluetooth/client.py:54 | every kept device was scanned and has the sought address ignoring case |
| Advertisement.MatchingDevicesComplete | bleak/backends/corebluetooth/client.py:54 | no scanned device with the sought address is dropped |
| Advertisement.FirstMatch | bleak/backends/corebluetooth/client.py:54-57 | there is a match exactly when some device's address matches, and the device chosen is the earliest match in scan order |
| Gatt.ServiceCollection.GetCharacteristic | bleak/backends/corebluetooth/client.py:151-152 | the lookup finds something exactly when a characteristic with that key was added, and what it finds was added under that key |
| Gatt.ServiceCollection.GetDescriptor | bleak/backends/corebluetooth/client.py:170-171 | the lookup finds something exactly when a descriptor with that handle was added, and what it finds has that handle |
| Gatt.ServiceCollection.AddService | bleak/backends/corebluetooth/client.py:121 | the service is appended, nothing else changes |
| Gatt.ServiceCollection.AddCharacteristic | bleak/backends/corebluetooth/client.py:128 | the characteristic is appended, nothing else changes |
| Gatt.ServiceCollection.AddDescriptor | bleak/backends/corebluetooth/client.py:130-134 | the descriptor is appended, nothing else changes |
| Gatt.DiscoveryAdds | bleak/backends/corebluetooth/client.py:114-134 | a pass adds the services in adapter order, then every characteristic in service order, and every descriptor tagged with its characteristic's UUID |
| Gatt.DiscoveryOrdered | bleak/backends/corebluetooth/client.py:114-134 | each service is added right after its characteristics were discovered, and each characteristic right after its descriptors were discovered; each descriptor is added right after its characteristic or a sibling descriptor, with the same tag |
| Gatt.PassEffect | bleak/backends/corebluetooth/client.py:114-135 | whatever came before, a pass appends exactly the wrapped tree and its own events are ordered |
| CoreBluetoothClient.Client.constructor | bleak/backends/corebluetooth/client.py:33-40 | a new client has an empty collection, no device, no cached collection, is not resolved, and has called nothing |
| CoreBluetoothClient.Client.ScanForDevices | bleak/backends/corebluetooth/client.py:79-101 | one scan call is made, and the devices returned are those of the scan specification, in scan order |
| CoreBluetoothClient.Client.ConnectAsWritten | bleak/backends/corebluetooth/client.py:48-68 | with no device matching the address: not-found error after the scan and before any connection call; otherwise the first match is connected, its services are discovered unless a collection was already remembered, the result is True, and the remembered collection is left as it was (as written, never set) |
| CoreBluetoothClient.Client.Connect | bleak/backends/corebluetooth/client.py:48-68 | the same scan, choice and errors, with the corrected `get_services`: the first connection's discovery pass is remembered and `_services_resolved` is set |
| CoreBluetoothClient.Client.ConnectThenGetServicesAsWritten | bleak/backends/corebluetooth/client.py:40 | as written, `connect` then `get_services` on a fresh client walks the device's tree twice |
| CoreBluetoothClient.Client.ConnectThenGetServices | bleak/backends/corebluetooth/client.py:110-111 | with the collection remembered, `connect` then `get_services` walks the tree once |
| CoreBluetoothClient.Client.Disconnect | bleak/backends/corebluetooth/client.py:70-73 | one disconnect call, result True |
| CoreBluetoothClient.Client.GetServices | bleak/backends/corebluetooth/client.py:103-136 | with a remembered collection: returned with no adapter call; otherwise one full discovery pass, `_services_resolved` set, collection remembered |
| CoreBluetoothClient.Client.GetServicesAsWritten | bleak/backends/corebluetooth/client.py:103-136 | the same guard, but the collection is never remembered |
| CoreBluetoothClient.Client.GetServicesTwiceAsWritten | bleak/backends/corebluetooth/client.py:40 | as written, two calls on a fresh client make two full discovery passes |
| CoreBluetoothClient.Client.GetServicesTwice | bleak/backends/corebluetooth/client.py:110-111 | with the collection remembered, two calls make one discovery pass |
| CoreBluetoothClient.Client.Discover | bleak/backends/corebluetooth/client.py:114-134 | the trace gains exactly the pass's events, in order; the collection gains exactly the wrapped tree |
| CoreBluetoothClient.Client.DiscoverServicesInOrder | bleak/backends/corebluetooth/client.py:116-134 | services are handled in the order the adapter returned them |
| CoreBluetoothClient.Client.DiscoverService | bleak/backends/corebluetooth/client.py:116-121 | characteristics discovered, then the service added, then its characteristics handled |
| CoreBluetoothClient.Client.DiscoverEach | bleak/backends/corebluetooth/client.py:123-134 | the characteristics of one service are handled in adapter order |
| CoreBluetoothClient.Client.DiscoverCharacteristic | bleak/backends/corebluetooth/client.py:124-134 | descriptors discovered, then the characteristic added, then its descriptors added, each tagged with its UUID |
| CoreBluetoothClient.Client.CollectService | bleak/backends/corebluetooth/client.py:121 | the collection gains the service and the trace records it |
| CoreBluetoothClient.Client.CollectCharacteristic | bleak/backends/corebluetooth/client.py:128 | the collection gains the characteristic and the trace records it |
| CoreBluetoothClient.Client.CollectDescriptor | bleak/backends/corebluetooth/client.py:130-134 | the collection gains the descriptor and the trace records it |
| CoreBluetoothClient.Client.ResolveCharacteristic | bleak/backends/corebluetooth/client.py:150-153 | fails exactly when the text has no key or no characteristic has the key, with that error; otherwise gives a characteristic of the collection with that key |
| CoreBluetoothClient.Client.ReadGattChar | bleak/backends/corebluetooth/client.py:138-157 | a missing characteristic fails with no adapter call; otherwise exactly one read of a matching characteristic's native object with the cache flag, returning the bytes read |
| CoreBluetoothClient.Client.WriteGattChar | bleak/backends/corebluetooth/client.py:178-193 | a missing characteristic fails with no adapter call; otherwise exactly one write of the data to a matching characteristic |
| CoreBluetoothClient.Client.StartNotify | bleak/backends/corebluetooth/client.py:210-232 | a missing characteristic fails with no adapter call; otherwise exactly one start-notify call on a matching characteristic with the callback |
| CoreBluetoothClient.Client.StopNotify | bleak/backends/corebluetooth/client.py:234-250 | with the key awaited: a missing characteristic fails with no adapter call; otherwise exactly one stop-notify call on a matching characteristic |
| CoreBluetoothClient.Client.LookupCharacteristic | bleak/backends/corebluetooth/client.py:246 | a lookup under any key finds something exactly when a characteristic is held under that key, a stored characteristic being held under its UUID text |
| CoreBluetoothClient.Client.StopNotifyAsWritten | bleak/backends/corebluetooth/client.py:245-248 | as written, the lookup is keyed with the coroutine, which holds nothing, so every call fails with not-found and no adapter call is made |
| CoreBluetoothClient.Client.StopNotifyDiscrepancy | bleak/backends/corebluetooth/client.py:245-250 | for a UUID whose characteristic the collection holds, the as-written command fails while the awaited one succeeds and makes one stop-notify call on it |
| CoreBluetoothClient.Client.ReadGattDescriptor | bleak/backends/corebluetooth/client.py:159-176 | a missing handle fails with no adapter call; otherwise exactly one read of a descriptor with that handle, returning the bytes read |
| CoreBluetoothClient.Client.WriteGattDescriptor | bleak/backends/corebluetooth/client.py:195-208 | a missing handle fails with no adapter call; otherwise exactly one write of the data to a descriptor with that handle |
| Server.BaseServer.constructor | bleak/backends/server.py:19-22 | a new server has a fresh, empty service collection and has called nothing |
| Server.BaseServer.Start | bleak/backends/server.py:33-41 | one start call; it returns the backend's flag or raises the backend's exception |
| Server.BaseServer.Stop | bleak/backends/server.py:43-51 | one stop call; it returns the backend's flag or raises the backend's exception |
| Server.BaseServer.AddService | bleak/backends/server.py:66-68 | one add-service call with the one service |
| Server.BaseServer.Enter | bleak/backends/server.py:26-28 | entering calls start once, and nothing else; it returns the server itself, or raises start's exception |
| Server.BaseServer.Exit | bleak/backends/server.py:30-31 | exiting calls stop once, and nothing else, whatever the body's exception; it never suppresses that exception, and raises stop's exception when stop raises |
| Server.BaseServer.Perform | bleak/backends/server.py:33-68 | a body's call on the server (start, stop or add_service) is recorded, and nothing else |
| Server.BaseServer.Use | bleak/backends/server.py:26-31 | a raising start leaves only the start call and its exception reaches the caller; otherwise, for any calls the body makes, the trace is start, then the body's calls, then stop, and the caller gets stop's exception if stop raises, else the body's exception unchanged |
| Server.Bracketed | bleak/backends/server.py:26-31 | for any body, start comes first and stop last, and each occurs exactly once more than in the body |
| Server.BracketedServices | bleak/backends/server.py:26-31 | a body that only adds services sees start exactly once, first, and stop exactly once, last |

## Left out

- Asynchrony is not modelled: coroutines, the asyncio event loop, `is_ready` (client.py:45-46), the server's `loop` field (server.py:19-20) and the delegate threads. Each adapter call is one atomic trace event.
- Logging (client.py:26, 61, 113, 118, 125) and `__str__` (client.py:42-43) are not modelled.
- The 10-second scan timeout (client.py:53, 81) is not modelled. The scan result is a given sequence.
- The advertisement list is not indexed separately: each scanned peripheral is paired with the advertisement data recorded at its position (client.py:89).
- `is_connected` (client.py:75-77) only forwards the delegate's flag, and the server's `is_connected`/`is_advertising` (server.py:53-64) have no behaviour in the base class, so none of them is modelled.
- The native objects (`Application`, the delegates, `NSData`) are left out. A read returns the bytes given as `reply`, and the adapter's `success` results (client.py:193, 208, 232, 250) are ignored, as the source ignores them. Adapter errors are not modelled.
- `_requester` and `_callbacks` (client.py:38-39) are never used and are not modelled.
- The service collection and the wrapper classes (bleak/backends/service.py and the CoreBluetooth wrappers) are not part of this model. The collection is append-only lists, and a wrapper keeps only its UUID or handle and its native object.
- Gatt.ServiceCollection.GetCharacteristic: does not say which entry is returned when several share a key, because the collection's source is not part of this model.
- Gatt.ServiceCollection.GetDescriptor: does not say which entry is returned when several share a handle, for the same reason.
- Uuid.UuidToInt: reads the hex digits of the text as written. It ignores any canonicalisation CBUUID applies to Base-range text in `initWithString_` and `data()` (client.py:269-271). If CBUUID shortened the mask text to its 16-bit form, `test_int` would be 0xFFFF and fewer UUIDs would pass the test. That cannot be decided from the code.
- Uuid.UuidToInt: covers only the canonical 36-character form. CBUUID also accepts other forms (for example 8-character 32-bit UUIDs), which the model treats as rejected text.
- Uuid.IntToUuid: always prints the 36-character form. CBUUID's own shortening of Base UUIDs when it prints is not modelled.
- Uuid.Normalize: text that CBUUID rejects yields no key (the client raises). The exception type is not modelled.
- Hex.Upper: upper-cases ASCII letters only. This is what UUID and address text holds; full Unicode case mapping is not modelled.
- CoreBluetoothClient.Client.WriteGattChar: takes `response` but does not forward it, as the source does not (client.py:178, 193). Acknowledgement modes are not modelled.
- CoreBluetoothClient.Client.GetServices: the corrected version never clears the remembered collection, because the code gives no point at which to clear it: it never fills `_services` (see Findings). With the corrected `Connect`, a second connection therefore does not rediscover; with `ConnectAsWritten`, every connection does.
- CoreBluetoothClient.Client.Connect: a failed connection attempt is not modelled. `_device_info` is set before the connection call, as in the source.
- UUID arguments given as `uuid.UUID` objects ("str or UUID" in the docstrings) are not modelled. Only text is.

## Findings

| source | as written | input that shows it | evidently intended | confidence | as-written member | corrected member |
|---|---|---|---|---|---|---|
| bleak/backends/corebluetooth/client.py:245 | `get_appropriate_uuid` is called without `await`, so the lookup is keyed with a coroutine object and `stop_notify` raises "not found" | `stop_notify("2A37")` after discovery of a characteristic with UUID 2A37 | normalise the UUID and look it up, as the other commands do | not executed; assumes the collection's lookup never matches a coroutine key against its UUID text | CoreBluetoothClient.Client.StopNotifyAsWritten | CoreBluetoothClient.Client.StopNotify |
| bleak/backends/corebluetooth/client.py:40 | `_services` starts as None and is never assigned, so the guard at lines 110-111 never fires and every `get_services` call runs discovery again, adding the tree to the collection a second time | `connect()` followed by `get_services()` | remember the collection after the first pass and return it afterwards | not executed; "a second time" assumes the collection's `add_service` appends an entry that is already present rather than rejecting or replacing it (its source is not part of this model) | CoreBluetoothClient.Client.ConnectThenGetServicesAsWritten | CoreBluetoothClient.Client.ConnectThenGetServices |
