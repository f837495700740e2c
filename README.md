# bluest core in Dafny

This project models the core of bluest, a cross-platform Bluetooth Low Energy library. Two backends are covered.

**Windows (WinRT).** The model covers:
- the advertising-data section decoders (`read_uuid`, `to_solicited_services`, `to_service_data`);
- the normalisation of a received advertisement into `AdvertisementData`;
- the scan service filter;
- the AQS filter and device-id handling of `connected_devices`;
- the advertiser that owns a `BluetoothLEAdvertisementPublisher`.

**CoreBluetooth.** The model covers:
- the adapter's protocol layer: the single-flight `scanning` flag, `events`, `wait_available`, the `scan` stream, `connect_device`, `disconnect_device` and `open_device`;
- the advertiser that owns a `CBPeripheralManager`;
- the manufacturer-data payload it advertises.

Modules, one per core file plus two shared ones:
- `Wrappers`: `Option` and `Result`.
- `Bluetooth`: the values both backends share.
  - Fixed-width integers.
  - UUIDs as 16 bytes, with the Bluetooth base-UUID expansion of 16- and 32-bit aliases (Bluetooth Core Specification, Vol 3, Part B, section 2.5.1).
  - The byte order of a WinRT `DataReader`.
  - `ManufacturerData`, `AdvertisementData`, `AdvertisingDevice`, `AdapterEvent` and the crate's `Error`.
- `WindowsAdapter` (src/windows/adapter.rs).
  - `DataReader` is a class: a cursor over a buffer with the WinRT read operations.
  - `read_uuid`, the two section decoders, the AQS loop and the device-opening loop are methods. Each is proved equal to a specification function.
  - The properties of those functions are lemmas: the count and position of every UUID in a section, which type bytes are decoded, that the last service-data section for a UUID wins, and the shape of the joined AQS string.
- `CoreBluetoothAdapter` (src/corebluetooth/adapter.rs).
  - A broadcast subscription is the finite sequence of `Item`s it yields. Each item is a delegate event or a lag report, paired with the central manager's state read when the item is handled.
  - `events`, `wait_available` and the scan stream are functions over that sequence. The `filter_map` / `skip_while` / `take_while` pipelines become recursion.
  - The two `while let` loops are methods proved equal to `ConnectLoop` / `DisconnectLoop`.
  - `Adapter` is a class holding the `scanning` flag and the central's scan state.
- `WindowsAdvertisement` (src/windows/advertisement.rs): `AdvertisementImpl` as a class over its `publisher` option. Each fallible WinRT call receives its outcome as a parameter.
- `CoreBluetoothAdvertisement` (src/corebluetooth/advertisement.rs):
  - the payload layout and its inverse;
  - the advertising dictionary;
  - `AdvertisementImpl` as a class over its `peripheral_manager` option.

Where the code departs from the Core Specification Supplement, the model follows the code. One case: section 1.4 of Part A of the Supplement lays the company identifier out little-endian. The CoreBluetooth advertiser (src/corebluetooth/advertisement.rs:64-65) swaps the bytes of `to_le_bytes()`, so the high byte comes first. `ManufacturerPayload` states the code's layout. `PayloadMatchesLittleEndianIff` shows the two layouts agree only when both bytes of the id are equal.

Calls into WinRT and Objective-C are not modelled. Their results are parameters:
- native getters are `Option`s;
- fallible calls are `NativeResult`s or failure descriptions;
- the device selector, the service query, `Device::from_id` and `from_nsdictionary` are functions passed in;
- the manager state is recorded on each item.

## Model

| member | source | states |
|---|---|---|
| Bluetooth.FromU16 | src/windows/adapter.rs:352 | `Uuid::from_u16`, the base-UUID expansion: two zero bytes, the alias, then the base UUID's tail. `FromU16Injective` and `Uuid16Layout` state its properties. |
| Bluetooth.FromU32 | src/windows/adapter.rs:353 | `Uuid::from_u32`: the alias as four big-endian bytes followed by the base UUID's tail. `FromU32Injective`, `BigEndianBytesOfBe32` and `Uuid32Layout` state its properties. |
| Bluetooth.FromU16Injective | src/windows/adapter.rs:352 | Distinct 16-bit aliases expand to distinct UUIDs. |
| Bluetooth.FromU32Injective | src/windows/adapter.rs:353 | Distinct 32-bit aliases expand to distinct UUIDs. |
| Bluetooth.BigEndianBytesOfBe32 | src/windows/adapter.rs:353 | Splitting a 32-bit alias into its four bytes gives back the bytes it was read from. |
| WindowsAdapter.DecodeUuid | src/windows/adapter.rs:351-358 | The definition of a UUID read from exactly its width of bytes: a 128-bit UUID is those bytes, and a 16- or 32-bit one ends with the base UUID's tail. `Uuid16Layout`, `Uuid32Layout` and `Uuid128Unchanged` give the full layouts. |
| WindowsAdapter.NextUuid | src/windows/adapter.rs:350-360 | A UUID can be read exactly when at least its width (2, 4 or 16 bytes) remains. |
| WindowsAdapter.Uuid128Unchanged | src/windows/adapter.rs:354-357 | A 128-bit UUID is the next 16 bytes unchanged. |
| WindowsAdapter.Uuid32Layout | src/windows/adapter.rs:353 | A 32-bit UUID is the reader's `ReadUInt32` value, as four big-endian bytes, followed by the base UUID's tail. |
| WindowsAdapter.Uuid16Layout | src/windows/adapter.rs:352 | A 16-bit UUID is two zero bytes, the `ReadUInt16` value big-endian, then the base UUID's tail. |
| WindowsAdapter.DataReader.FromBuffer | src/windows/adapter.rs:377 | A new reader over a buffer has the whole buffer unconsumed. |
| WindowsAdapter.DataReader.UnconsumedBufferLength | src/windows/adapter.rs:404 | The number of bytes not yet consumed. |
| WindowsAdapter.DataReader.ReadBytes | src/windows/adapter.rs:356 | Reading n bytes returns the next n and consumes them. With fewer than n left, it fails and the cursor stays put. |
| WindowsAdapter.DataReader.ReadUInt16 | src/windows/adapter.rs:352 | Returns the next two bytes in the reader's byte order and consumes them, or fails when fewer remain and leaves the cursor put. |
| WindowsAdapter.DataReader.ReadUInt32 | src/windows/adapter.rs:353 | Returns the next four bytes in the reader's byte order and consumes them, or fails when fewer remain and leaves the cursor put. |
| WindowsAdapter.ReadUuid | src/windows/adapter.rs:350-360 | The result is the next UUID of the unconsumed bytes. On success the cursor advances by exactly the UUID's width; on failure it stays put. |
| WindowsAdapter.SectionUuids | src/windows/adapter.rs:378-380 | The definition of the UUIDs read one after another until less than a whole one remains: none exactly when the section is shorter than one UUID. `SectionUuidsCount`, `SectionUuidAt` and `PushUuids` state the rest. |
| WindowsAdapter.SectionUuidsCount | src/windows/adapter.rs:378-380 | A section yields floor(length / width) UUIDs, so trailing bytes too short for a UUID are dropped. |
| WindowsAdapter.SectionUuidAt | src/windows/adapter.rs:378-380 | The i-th UUID of a section is decoded from bytes i·w to i·w+w, where `start` names i·w. |
| WindowsAdapter.SectionUuidsDrop | src/windows/adapter.rs:378-380 | The i-th UUID of a section is the first UUID read once i·w bytes have been consumed. |
| WindowsAdapter.PushUuids | src/windows/adapter.rs:376-380 | The `while let` loop appends every UUID of the section to what was collected before. |
| WindowsAdapter.SolicitedKind | src/windows/adapter.rs:368-373 | 0x14 means 16-bit, 0x15 means 128-bit and 0x1f means 32-bit UUIDs, each in both directions. Every other type is skipped. |
| WindowsAdapter.SolicitedOf | src/windows/adapter.rs:367-381 | The definition of one section's solicited UUIDs: a section yields some only when its type is a solicitation type and it holds at least one whole UUID. |
| WindowsAdapter.SolicitedServices | src/windows/adapter.rs:362-385 | The definition of the solicited list, section by section in order: empty when no section has a solicitation type. `SolicitedAppend` and `SolicitedIgnoresOtherTypes` state its properties. |
| WindowsAdapter.SolicitedAppend | src/windows/adapter.rs:367-382 | The solicited list of a concatenation is the concatenation of the lists. |
| WindowsAdapter.SolicitedIgnoresOtherTypes | src/windows/adapter.rs:372-375 | Inserting a section of any other type leaves the solicited list unchanged. |
| WindowsAdapter.ToSolicitedServices | src/windows/adapter.rs:362-385 | The loop returns exactly `SolicitedServices` of the sections. |
| WindowsAdapter.ServiceDataKind | src/windows/adapter.rs:393-398 | 0x16 means 16-bit, 0x20 means 32-bit and 0x21 means 128-bit UUID keys, each in both directions. |
| WindowsAdapter.ServiceDataEntry | src/windows/adapter.rs:400-408 | A section gives an entry iff its type is a service-data type and its payload holds at least the key. The key is the leading UUID and the value is every remaining byte. |
| WindowsAdapter.ServiceData | src/windows/adapter.rs:387-413 | The definition of the service-data map: each section's entry inserted in section order. `ServiceDataLookup`, `ServiceDataLastWins` and `ServiceDataSkips` state its properties. |
| WindowsAdapter.InsertEntry | src/windows/adapter.rs:407 | The definition of `service_data.insert` for one section's entry; `InsertEntryLookup` states its properties. |
| WindowsAdapter.InsertEntryLookup | src/windows/adapter.rs:407 | After inserting a section's entry, a UUID is a key iff it was one before or is the section's key, the section's key holds the section's value, and every other key keeps its value. |
| WindowsAdapter.ServiceDataLookup | src/windows/adapter.rs:390-412 | A UUID is a key iff some section has it as its key. |
| WindowsAdapter.ServiceDataLastWins | src/windows/adapter.rs:390-412 | A key's value comes from the last section whose entry has that key: later sections overwrite earlier ones. |
| WindowsAdapter.ServiceDataSkips | src/windows/adapter.rs:397-403 | A section of another type, or one too short for its key, leaves the map unchanged. |
| WindowsAdapter.InsertSection | src/windows/adapter.rs:400-408 | One iteration inserts the section's entry, if any, over an existing one. |
| WindowsAdapter.ReadSection | src/windows/adapter.rs:402-406 | Reading the key through a fresh reader and then every unconsumed byte gives exactly the section's entry. |
| WindowsAdapter.ToServiceData | src/windows/adapter.rs:387-413 | The loop returns exactly `ServiceData` of the sections. |
| WindowsAdapter.ManufacturerDataTryFrom | src/windows/adapter.rs:280-287 | Conversion succeeds iff both the company id and the data can be read, and it keeps both unchanged. |
| WindowsAdapter.FirstManufacturerData | src/windows/adapter.rs:300-304 | The `ManufacturerData().GetAt(0).try_into().ok()` chain: present iff the list getter succeeds, the list is non-empty and the first entry converts, and then it is that entry converted. |
| WindowsAdapter.AdvertisementFrom | src/windows/adapter.rs:291-340 | Fallback rules: <br>• `is_connectable` is true only when reported true. <br>• Tx power is present only when both getters succeed. <br>• Without an advertisement, name, manufacturer data, services, solicited services and service data are all empty. <br>• An empty name becomes None. <br>• Manufacturer data is the first entry. <br>• Each list falls back to empty when its getter fails. |
| WindowsAdapter.OnlyFirstManufacturerData | src/windows/adapter.rs:300-304 | Manufacturer entries after the first never change the decoded advertisement. |
| WindowsAdapter.AnyAdvertised | src/windows/adapter.rs:241 | True iff some requested UUID is advertised. |
| WindowsAdapter.ScanFilter | src/windows/adapter.rs:240-242 | An advertisement passes iff no services were requested or some requested UUID is in its services. |
| WindowsAdapter.ScanFilterShares | src/windows/adapter.rs:240-242 | With a non-empty request, passing means the requested and advertised sets share a UUID. |
| WindowsAdapter.Selectors | src/windows/adapter.rs:141-143 | One selector per requested service, in order. |
| WindowsAdapter.DropLeadingEmpty | src/windows/adapter.rs:138-139 | The result starts with a non-empty selector, or is empty. When no selector is empty it is every selector. |
| WindowsAdapter.DropLeadingEmptySuffix | src/windows/adapter.rs:138-139 | What is dropped is exactly the leading empty selectors: the result is a suffix of the selectors and every selector before it is empty. |
| WindowsAdapter.Join | src/windows/adapter.rs:136-144 | The definition of the selectors joined by " OR "; `JoinEnds` and `JoinLength` state its properties. |
| WindowsAdapter.JoinEnds | src/windows/adapter.rs:136-144 | The joined filter starts with the first selector and ends with the last. With two or more selectors and an empty last one, it therefore ends in " OR ". |
| WindowsAdapter.JoinLength | src/windows/adapter.rs:136-144 | The joined filter holds the selectors' characters plus one " OR " between each neighbouring pair. |
| WindowsAdapter.AqsFilter | src/windows/adapter.rs:136-144 | The loop returns the selectors, without their leading empty ones, joined by " OR ". A separator is pushed only after something non-empty, so only leading empty selectors vanish; an empty selector later on still gets its " OR ", so the filter can end in one. |
| WindowsAdapter.AepIdSet | src/windows/adapter.rs:154-159 | Succeeds iff every id lookup succeeds. The set then holds exactly the ids found; otherwise the error is a lookup's native error. |
| WindowsAdapter.CollectDeviceIds | src/windows/adapter.rs:154-159 | The loop computes `AepIdSet`. |
| WindowsAdapter.AepIdSetErrSticks | src/windows/adapter.rs:156-157 | Once a lookup fails, later lookups do not change the result. |
| WindowsAdapter.Enumerate | src/windows/adapter.rs:162 | Iterating the id set visits each id exactly once. |
| WindowsAdapter.OpenAll | src/windows/adapter.rs:161-164 | Succeeds iff every id opens. The devices are then in iteration order; otherwise the error is one id's error. |
| WindowsAdapter.OpenEach | src/windows/adapter.rs:161-164 | The loop computes `OpenAll`. |
| WindowsAdapter.OpenAllErrSticks | src/windows/adapter.rs:163 | The first failing id decides the result. |
| WindowsAdapter.ConnectedDevices | src/windows/adapter.rs:134-185 | Without services, every connected device is opened in query order. With services, the ids found through the joined filter are de-duplicated and each distinct id is opened once; a failing id lookup fails the call. |
| CoreBluetoothAdapter.AdapterEventOf | src/corebluetooth/adapter.rs:77-93 | The `filter_map` step: only `StateChanged` and lags give an element. It is `Available` iff the item is `StateChanged` handled while powered on, and a lag gives an error carrying the missed count. |
| CoreBluetoothAdapter.Events | src/corebluetooth/adapter.rs:75-94 | The definition of the `events` stream: at most one element per item. `EventsAppend`, `EventsMembers` and `EventsDropsOthers` state its properties. |
| CoreBluetoothAdapter.EventsAppend | src/corebluetooth/adapter.rs:77-93 | `events` maps items one at a time: the stream of a concatenation is the concatenation of the streams. |
| CoreBluetoothAdapter.EventsMembers | src/corebluetooth/adapter.rs:77-93 | An element is in the stream iff some item maps to it. `StateChanged` maps to `Available` when powered on and to `Unavailable` otherwise; a lag maps to an `Internal` error. |
| CoreBluetoothAdapter.EventsDropsOthers | src/corebluetooth/adapter.rs:92 | Discovery, connect and disconnect events do not appear in the stream. |
| CoreBluetoothAdapter.FirstNotSkipped | src/corebluetooth/adapter.rs:101-104 | The `skip_while(...).next()` step: the result is an element of the stream that is an error or `Available`, and there is none iff every element is `Ok` and not `Available`. |
| CoreBluetoothAdapter.WaitAvailable | src/corebluetooth/adapter.rs:97-114 | The definition of `wait_available`: Ok when powered on; an error is either the stream-closed error or an error element of the stream. `WaitAvailableAt` characterises it fully. |
| CoreBluetoothAdapter.WaitAvailableAt | src/corebluetooth/adapter.rs:97-114 | When not powered on, the first item not passed over decides: `Available` gives Ok, a lag gives its `Internal` error, and a stream with no such item gives the stream-closed error. Later items do not matter. |
| CoreBluetoothAdapter.WaitAvailablePoweredOn | src/corebluetooth/adapter.rs:99-113 | Already powered on, the result is Ok whatever the subscription holds. |
| CoreBluetoothAdapter.DiscoveredOf | src/corebluetooth/adapter.rs:165-178 | The scan stream's `filter_map` step: only a discovery yields a device, and then it wraps the peripheral, decodes the advertisement dictionary and carries the signal strength as `Some`. |
| CoreBluetoothAdapter.ScanStream | src/corebluetooth/adapter.rs:163-179 | Every yielded device carries a signal strength and comes from a discovery handled while powered on, with every earlier item also handled while powered on. |
| CoreBluetoothAdapter.ScanStreamEndsWhenUnavailable | src/corebluetooth/adapter.rs:164 | Nothing at or after the first item handled while not powered on is yielded. |
| CoreBluetoothAdapter.ScanStreamAppend | src/corebluetooth/adapter.rs:163-179 | While the manager stays powered on, every discovery is yielded, in order. |
| CoreBluetoothAdapter.FailureOf | src/corebluetooth/adapter.rs:202-204 | The error of a reported failure: the native error when one is given, otherwise `ConnectionFailed`. |
| CoreBluetoothAdapter.ConnectLoop | src/corebluetooth/adapter.rs:195-210 | The definition of the connect loop: an error is either `AdapterUnavailable` or the failure some item reports for the target. `ConnectLoopAt` and `ConnectIgnoresOthers` characterise it. |
| CoreBluetoothAdapter.ConnectLoopAt | src/corebluetooth/adapter.rs:195-210 | The first item not passed over decides. The state check runs first, so not powered on gives `AdapterUnavailable`. Then the target's `Connect` gives Ok and its `ConnectFailed` gives the native error or `ConnectionFailed`. An exhausted stream gives Ok. |
| CoreBluetoothAdapter.ConnectIgnoresOthers | src/corebluetooth/adapter.rs:199-206 | Events for other peripherals, other events and lags, handled while powered on, do not change the outcome. |
| CoreBluetoothAdapter.DisconnectLoop | src/corebluetooth/adapter.rs:222-236 | The definition of the disconnect loop: an error is either `AdapterUnavailable` or the target's disconnection reported by some item. `DisconnectLoopAt` and `DisconnectOkIff` characterise it. |
| CoreBluetoothAdapter.DisconnectLoopAt | src/corebluetooth/adapter.rs:222-236 | The first item not passed over is either handled while not powered on (`AdapterUnavailable`) or the target's `Disconnect`, which always gives an error. An exhausted stream gives Ok. |
| CoreBluetoothAdapter.DisconnectOkIff | src/corebluetooth/adapter.rs:222-236 | The disconnect loop returns Ok iff it passes over every item. |
| CoreBluetoothAdapter.OpenDevice | src/corebluetooth/adapter.rs:117-124 | Ok iff a peripheral was retrieved, and then it is the first one; otherwise `NotFound`. |
| CoreBluetoothAdapter.Adapter.constructor | src/corebluetooth/adapter.rs:70 | A new adapter is not scanning. |
| CoreBluetoothAdapter.Adapter.Scan | src/corebluetooth/adapter.rs:144-184 | Not powered on: `AdapterUnavailable`, nothing changes. Already scanning: `AlreadyScanning`, nothing changes. Otherwise the flag is set, one guard is live, and the native scan starts, unfiltered when no services are given. |
| CoreBluetoothAdapter.Adapter.DropScanGuard | src/corebluetooth/adapter.rs:158-161 | Dropping the guard stops the native scan and clears the flag. |
| CoreBluetoothAdapter.Adapter.ConnectDevice | src/corebluetooth/adapter.rs:187-211 | Not powered on yields `AdapterUnavailable` before any command is issued; otherwise the result is `ConnectLoop` of the subscription. |
| CoreBluetoothAdapter.Adapter.DisconnectDevice | src/corebluetooth/adapter.rs:214-237 | Not powered on yields `AdapterUnavailable` before any command is issued; otherwise the result is `DisconnectLoop` of the subscription. |
| CoreBluetoothAdapter.SingleFlight | src/corebluetooth/adapter.rs:149-161 | A second scan while the first is live fails `AlreadyScanning`. Once the guard has run, a new scan succeeds. |
| WindowsAdvertisement.Publisher.Start | src/windows/advertisement.rs:79 | A successful Start leaves the publisher started. A failure is returned and changes nothing. |
| WindowsAdvertisement.Publisher.Stop | src/windows/advertisement.rs:96 | A successful Stop leaves the publisher stopped. A failure is returned and changes nothing. |
| WindowsAdvertisement.AdvertisementImpl.constructor | src/windows/advertisement.rs:34-38 | A new advertiser holds no publisher. |
| WindowsAdvertisement.AdvertisementImpl.Advertise | src/windows/advertisement.rs:40-91 | • A held publisher is stopped and dropped first; a failing Stop is returned with the publisher kept. <br>• A fresh publisher is installed carrying `data` unchanged and no company id, then started. <br>• Success without a duration ends with it started. <br>• Success with a duration ends with no publisher. <br>• Each failure leaves the state reached. |
| WindowsAdvertisement.AdvertisementImpl.StopAdvertising | src/windows/advertisement.rs:93-100 | Without a publisher: Ok, and nothing changes. With one: a successful Stop drops it; a failing Stop is returned and the publisher is kept. |
| WindowsAdvertisement.StepMessage | src/windows/advertisement.rs:104-128 | The `map_err` context of each fallible step of `start_advertising`; every one starts with "Failed to ". |
| WindowsAdvertisement.AdvertisementImpl.StartAdvertising | src/windows/advertisement.rs:102-132 | Without manufacturer data: "no data to send.", unless creating the advertisement failed first. A failing step returns its context message. Otherwise Ok iff nothing fails, with a fresh guard whose started publisher carries that company id and payload. |
| WindowsAdvertisement.Readvertise | src/windows/advertisement.rs:43-80 | Advertising twice stops the first publisher and installs a different, started one that carries the new data. |
| CoreBluetoothAdvertisement.ManufacturerPayload | src/corebluetooth/advertisement.rs:63-67 | The payload is two bytes longer than the data, and its first two bytes read high byte first give the company id. |
| CoreBluetoothAdvertisement.SplitManufacturerPayload | src/corebluetooth/advertisement.rs:63-67 | Splitting succeeds iff the payload has at least two bytes. |
| CoreBluetoothAdvertisement.SplitOfPayload | src/corebluetooth/advertisement.rs:63-67 | Splitting off the first two bytes of a payload recovers the company id and the data. |
| CoreBluetoothAdvertisement.PayloadOfSplit | src/corebluetooth/advertisement.rs:63-67 | Every byte string of two or more bytes is the payload of what splitting it gives. |
| CoreBluetoothAdvertisement.LittleEndianPayload | src/corebluetooth/advertisement.rs:64 | The little-endian layout: also two bytes longer, with the data unchanged after the id. |
| CoreBluetoothAdvertisement.PayloadMatchesLittleEndianIff | src/corebluetooth/advertisement.rs:64-65 | The payload built agrees with the little-endian layout iff the id's two bytes are equal. |
| CoreBluetoothAdvertisement.AdvertisingDictionaryOf | src/corebluetooth/advertisement.rs:60-71 | The manufacturer key is present iff there is manufacturer data, and then it holds the payload. No other key is set. |
| CoreBluetoothAdvertisement.PeripheralManager.StartAdvertising | src/corebluetooth/advertisement.rs:86 | The manager is asked to advertise the dictionary given; the field records that dictionary. |
| CoreBluetoothAdvertisement.PeripheralManager.StopAdvertising | src/corebluetooth/advertisement.rs:33 | The manager is asked to stop; the field records that nothing is being advertised. |
| CoreBluetoothAdvertisement.AdvertisementImpl.constructor | src/corebluetooth/advertisement.rs:24-28 | A new advertiser holds no manager. |
| CoreBluetoothAdvertisement.AdvertisementImpl.StopAdvertising | src/corebluetooth/advertisement.rs:30-39 | A held manager stops advertising. The field always ends None and the result is always Ok. |
| CoreBluetoothAdvertisement.AdvertisementImpl.StartAdvertising | src/corebluetooth/advertisement.rs:41-93 | A held manager is reused; a new one is created only when none is held. The manager then advertises the dictionary, and the result is always Ok with this advertiser as the guard, so the `Err` at line 92 is unreachable. |
| CoreBluetoothAdvertisement.StartStopCycle | src/corebluetooth/advertisement.rs:30-52 | Start, stop, stop again and restart all succeed, and the second stop is a no-op. The restart creates a new manager advertising the new data. |

## Left out

- WinRT and Objective-C calls are not modelled; their results are inputs. This covers the radio, `FindAllAsync*`, `GetDeviceSelector*`, `msg_send!`, `NSString` / `NSData` / dictionary helpers and `Device::from_id`. They are foreign code.
- The parts of src/windows/adapter.rs outside the decoders, the filter and `connected_devices` are not part of this model: the adapter's construction, event streams, watcher plumbing, `open_device`, `connect_device` and `disconnect_device`. They are WinRT plumbing.
- `connected_devices` on CoreBluetoothAdapter (src/corebluetooth/adapter.rs:127-137) only maps `retrieve_connected_peripherals_with_services` to devices. It is a single native call.
- WindowsAdapter.ConnectedDevices: failures of `GetDeviceSelectorFromUuid` (line 142), of the service queries (lines 147-152 and 171-176), of `services.Size()` (line 154), of `devices.Size()` (line 178) and of `device.Id()` (line 180) are not modelled. The selector and the queries are total functions.
- WindowsAdapter.ToSolicitedServices / WindowsAdapter.ToServiceData: failures of `DataType()`, `Data()` and `DataReader::FromBuffer` are not modelled, nor, in `to_service_data`, failures of `UnconsumedBufferLength()` (line 404) and `ReadBytes` (line 406). Such a failure turns the whole result into the default through `unwrap_or_default`. The getters are taken to succeed.
- WindowsAdapter.Enumerate: the order in which the `HashSet` of device ids is iterated is left open. Any order visiting each id once is allowed, because hash order is not part of the library's behaviour.
- WindowsAdapter.AdvertisementFrom: the local name is kept as the string reported. The lossy UTF-16 to UTF-8 conversion of `to_string_lossy` (line 299) is the identity here, because strings are sequences of characters with no encoding.
- The integer byte order of a WinRT `DataReader` is a parameter, because the code never sets it.
- CoreBluetoothAdapter.Adapter.Scan: the result carries no stream value. The stream's contents are stated separately, by `ScanStream` over the subscription taken at the call.
- The decoding of a discovery's dictionary (`AdvertisementData::from_nsdictionary`) is not part of this model. It is the parameter `fromDictionary`.
- Concurrency is not modelled: the atomic orderings of `swap` / `store`, and tasks interleaving on the broadcast channel. Clones of an adapter share one flag, and here they are one object. A lag is an input item carrying the number of missed events; the boxed lag error is reduced to that count.
- Error messages and payloads: the `Box<dyn Error>` source of an error is reduced to the lag count or the native error code.
- Debug output, `println!` and the `Drop` impl of the CoreBluetooth advertiser are left out. They only print.
- WindowsAdvertisement.AdvertisementImpl.Advertise: `tokio::time::sleep` is not modelled; the duration elapses as a single step. The WinRT builder calls of lines 51-69 share one outcome: whichever fails, the publisher was already dropped and the error is returned.
- WindowsAdvertisement.AdvertisementImpl.StartAdvertising: the code discards the result of `SetCompanyId` (line 109), and the model takes that call to succeed.
- The native state of a `CBPeripheralManager` is not modelled. Its `advertising` field records only the last dictionary it was asked to advertise, even though `startAdvertising:` is sent right after `alloc`/`init` (src/corebluetooth/advertisement.rs:47-51, 86).
- `AdvertisingGuard` is the advertiser it holds. Its drop behaviour is defined outside these files.
- CoreBluetoothAdvertisement.AdvertisementImpl.StopAdvertising: the source's error type is `io::Error`, and the model uses a string error. No error is ever produced.
