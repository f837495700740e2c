/**
 * The CoreBluetooth advertiser: an `AdvertisementImpl` holds at most one
 * `CBPeripheralManager`, created on the first `start_advertising` and dropped by
 * `stop_advertising`; and the manufacturer-data value `start_advertising` puts under
 * `kCBAdvDataManufacturerData`.
 */
module CoreBluetoothAdvertisement {
  import opened Wrappers
  import opened Bluetooth

  /** The advertisement dictionary handed to `startAdvertising:`. */
  type AdvertisingDictionary = map<string, seq<byte>>

  const ManufacturerDataKey: string := "kCBAdvDataManufacturerData"

  /** The high and the low byte of a 16-bit value. */
  function HighByte(v: u16): byte { (v as int / 0x100) as byte }
  function LowByte(v: u16): byte { (v as int % 0x100) as byte }

  /** The payload `start_advertising` builds: the company id's bytes swapped out of
      `to_le_bytes` order, so the high byte comes first, followed by the data. */
  function ManufacturerPayload(m: ManufacturerData): (p: seq<byte>)
    ensures |p| == 2 + |m.data|
    ensures Be16(p[0], p[1]) == m.companyId
  {
    var c := [LowByte(m.companyId), HighByte(m.companyId)];  // `to_le_bytes`
    [c[1], c[0]] + m.data
  }

  /** Splitting off the first two bytes of a payload, read high byte first. */
  function SplitManufacturerPayload(p: seq<byte>): (r: Option<ManufacturerData>)
    ensures r.Some? <==> |p| >= 2
  {
    if |p| < 2 then None else Some(ManufacturerData(Be16(p[0], p[1]), p[2..]))
  }

  /** Splitting a payload recovers the company id and the data it was built from. */
  lemma SplitOfPayload(m: ManufacturerData)
    ensures SplitManufacturerPayload(ManufacturerPayload(m)) == Some(m)
  {
    assert ManufacturerPayload(m)[2..] == m.data;
  }

  /** Every payload of at least two bytes is the payload of what splitting it gives. */
  lemma PayloadOfSplit(p: seq<byte>)
    requires |p| >= 2
    ensures ManufacturerPayload(SplitManufacturerPayload(p).value) == p
  {
    var m := SplitManufacturerPayload(p).value;
    var hi, lo := p[0], p[1];
    assert HighByte(m.companyId) == hi && LowByte(m.companyId) == lo;
    assert ManufacturerPayload(m) == [hi, lo] + p[2..];
    assert [hi, lo] + p[2..] == p;
  }

  /** The layout of the Core Specification Supplement, Part A, section 1.4: the company
      identifier in little-endian order (low byte first), then the data. */
  function LittleEndianPayload(m: ManufacturerData): (p: seq<byte>)
    ensures |p| == 2 + |m.data| && p[2..] == m.data
  {
    [LowByte(m.companyId), HighByte(m.companyId)] + m.data
  }

  /** The payload built agrees with the little-endian layout exactly when the company
      id's two bytes are equal. */
  lemma PayloadMatchesLittleEndianIff(m: ManufacturerData)
    ensures ManufacturerPayload(m) == LittleEndianPayload(m) <==> HighByte(m.companyId) == LowByte(m.companyId)
  {
    if ManufacturerPayload(m) == LittleEndianPayload(m) {
      assert ManufacturerPayload(m)[0] == LittleEndianPayload(m)[0];
    }
  }

  /** The dictionary `start_advertising` builds: the manufacturer payload under
      `kCBAdvDataManufacturerData` when there is manufacturer data, and nothing else. */
  function AdvertisingDictionaryOf(data: AdvertisementData): (d: AdvertisingDictionary)
    ensures ManufacturerDataKey in d <==> data.manufacturerData.Some?
    ensures forall k :: k in d ==> k == ManufacturerDataKey
    ensures data.manufacturerData.Some? ==> d[ManufacturerDataKey] == ManufacturerPayload(data.manufacturerData.value)
  {
    var empty: AdvertisingDictionary := map[];
    match data.manufacturerData
    case None => empty
    case Some(m) => empty[ManufacturerDataKey := ManufacturerPayload(m)]
  }

  /** A `CBPeripheralManager`: what it is advertising, if anything. */
  class PeripheralManager {
    var advertising: Option<AdvertisingDictionary>

    /** `alloc` followed by `init`. */
    constructor ()
      ensures advertising == None
    {
      advertising := None;
    }

    /** `startAdvertising:`. */
    method StartAdvertising(dictionary: AdvertisingDictionary)
      modifies this
      ensures advertising == Some(dictionary)
    {
      advertising := Some(dictionary);
    }

    /** `stopAdvertising`. */
    method StopAdvertising()
      modifies this
      ensures advertising == None
    {
      advertising := None;
    }
  }

  class AdvertisementImpl {
    var peripheralManager: Option<PeripheralManager>

    /** The manager this advertiser holds, as a frame. */
    function Held(): set<PeripheralManager>
      reads this
    {
      if peripheralManager.Some? then {peripheralManager.value} else {}
    }

    /** `AdvertisementImpl::new`: no manager. */
    constructor ()
      ensures peripheralManager == None
    {
      peripheralManager := None;
    }

    /** `stop_advertising`: a held manager stops advertising; the field always ends None
        and the result is always Ok. */
    method StopAdvertising() returns (r: Result<(), string>)
      modifies this, Held()
      ensures r == Ok(()) && peripheralManager == None
      ensures old(peripheralManager).Some? ==> old(peripheralManager).value.advertising == None
    {
      if peripheralManager.Some? {
        peripheralManager.value.StopAdvertising();
      }
      peripheralManager := None;
      r := Ok(());
    }

    /** `start_advertising`: reuse the manager held, or create one when there is none;
        have it advertise `AdvertisingDictionaryOf(data)`; and return this advertiser as
        the guard. The manager is always present by then, so the result is always Ok. */
    method StartAdvertising(data: AdvertisementData) returns (r: Result<AdvertisementImpl, string>)
      modifies this, Held()
      ensures r == Ok(this)
      ensures old(peripheralManager).Some? ==> peripheralManager == old(peripheralManager)
      ensures old(peripheralManager).None? ==> peripheralManager.Some? && fresh(peripheralManager.value)
      ensures peripheralManager.Some? && peripheralManager.value.advertising == Some(AdvertisingDictionaryOf(data))
    {
      if peripheralManager.None? {
        var manager := new PeripheralManager();
        peripheralManager := Some(manager);
      }
      if peripheralManager.Some? {
        var dictionary := AdvertisingDictionaryOf(data);
        peripheralManager.value.StartAdvertising(dictionary);
        return Ok(this);
      }
      r := Err("Failed to start CoreBluetooth advertising");
    }
  }

  /** Start, stop, stop again, then start again: every call succeeds, a second stop
      finds nothing to stop, and the restart creates a new manager advertising the new
      data. */
  method StartStopCycle(first: AdvertisementData, second: AdvertisementData)
    returns (started: bool, stopped: Result<(), string>, stoppedAgain: Result<(), string>,
             restarted: bool, firstAdvertising: Option<AdvertisingDictionary>,
             secondAdvertising: Option<AdvertisingDictionary>, newManager: bool)
    ensures started && restarted
    ensures stopped == Ok(()) && stoppedAgain == Ok(())
    ensures firstAdvertising == None && newManager
    ensures secondAdvertising == Some(AdvertisingDictionaryOf(second))
  {
    var adv := new AdvertisementImpl();
    var r1 := adv.StartAdvertising(first);
    started := r1.Ok?;
    var m1 := adv.peripheralManager.value;
    stopped := adv.StopAdvertising();
    stoppedAgain := adv.StopAdvertising();
    var r2 := adv.StartAdvertising(second);
    restarted := r2.Ok?;
    var m2 := adv.peripheralManager.value;
    firstAdvertising, secondAdvertising, newManager := m1.advertising, m2.advertising, m1 != m2;
  }
}
