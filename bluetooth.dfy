/**
 * Values shared by both backends: fixed-width integers, UUIDs with the Bluetooth
 * base-UUID expansion, the byte order of a data reader, and the crate-level
 * advertisement, event and error types.
 */
module Bluetooth {
  import opened Wrappers

  newtype byte = x: int | 0 <= x < 0x100
  newtype u16 = x: int | 0 <= x < 0x1_0000
  newtype u32 = x: int | 0 <= x < 0x1_0000_0000
  newtype i16 = x: int | -0x8000 <= x < 0x8000

  /** A UUID as its 16 bytes, most significant first (the order `Uuid::from_bytes` takes). */
  type Uuid = s: seq<byte> | |s| == 16 witness [0, 0, 0, 0, 0, 0, 0, 0, 0, 0, 0, 0, 0, 0, 0, 0]

  /** Bytes 4 to 15 of the Bluetooth base UUID 00000000-0000-1000-8000-00805F9B34FB
      (Bluetooth Core Specification, Vol 3, Part B, section 2.5.1). */
  const BaseUuidTail: seq<byte> := [0x00, 0x00, 0x10, 0x00, 0x80, 0x00, 0x00, 0x80, 0x5F, 0x9B, 0x34, 0xFB]

  /** The value of two bytes, the first one most significant. */
  function Be16(hi: byte, lo: byte): u16 {
    (hi as int * 0x100 + lo as int) as u16
  }

  /** The value of four bytes, the first one most significant. */
  function Be32(b0: byte, b1: byte, b2: byte, b3: byte): u32 {
    (Be16(b0, b1) as int * 0x1_0000 + Be16(b2, b3) as int) as u32
  }

  /** The four bytes of `v`, most significant first. */
  function BigEndianBytes32(v: u32): (b: seq<byte>)
    ensures |b| == 4 && Be32(b[0], b[1], b[2], b[3]) == v
  {
    var w1 := v as int / 0x100;
    var w2 := w1 / 0x100;
    assert w2 / 0x100 < 0x100;
    [(w2 / 0x100) as byte, (w2 % 0x100) as byte, (w1 % 0x100) as byte, (v as int % 0x100) as byte]
  }

  /** Splitting a big-endian value into bytes gives back the bytes it was built from. */
  lemma BigEndianBytesOfBe32(b0: byte, b1: byte, b2: byte, b3: byte)
    ensures BigEndianBytes32(Be32(b0, b1, b2, b3)) == [b0, b1, b2, b3]
  {
    var v := Be32(b0, b1, b2, b3) as int;
    assert v == ((b0 as int * 0x100 + b1 as int) * 0x100 + b2 as int) * 0x100 + b3 as int;
    var w1 := v / 0x100;
    assert w1 == (b0 as int * 0x100 + b1 as int) * 0x100 + b2 as int && v % 0x100 == b3 as int;
    var w2 := w1 / 0x100;
    assert w2 == b0 as int * 0x100 + b1 as int && w1 % 0x100 == b2 as int;
    assert w2 / 0x100 == b0 as int && w2 % 0x100 == b1 as int;
  }

  /** The order in which a data reader assembles multi-byte integers. */
  datatype ByteOrder = LittleEndian | BigEndian

  /** `ReadUInt16` on the two bytes `b`, taken in stream order. */
  function ReadU16(b: seq<byte>, order: ByteOrder): u16
    requires |b| == 2
  {
    if order == BigEndian then Be16(b[0], b[1]) else Be16(b[1], b[0])
  }

  /** `ReadUInt32` on the four bytes `b`, taken in stream order. */
  function ReadU32(b: seq<byte>, order: ByteOrder): u32
    requires |b| == 4
  {
    if order == BigEndian then Be32(b[0], b[1], b[2], b[3]) else Be32(b[3], b[2], b[1], b[0])
  }

  /** `Uuid::from_u32`: the 32-bit alias placed in front of the base UUID's tail. */
  function FromU32(v: u32): (u: Uuid)
    ensures u[..4] == BigEndianBytes32(v) && u[4..] == BaseUuidTail
  {
    BigEndianBytes32(v) + BaseUuidTail
  }

  /** `Uuid::from_u16`: a 16-bit alias is the 32-bit alias with two leading zero bytes. */
  function FromU16(v: u16): (u: Uuid)
    ensures u[..2] == [0, 0] && u[4..] == BaseUuidTail
  {
    var u := FromU32(v as u32);
    assert u[0] == 0 && u[1] == 0;
    u
  }

  /** Distinct 32-bit aliases expand to distinct UUIDs. */
  lemma FromU32Injective(a: u32, b: u32)
    ensures FromU32(a) == FromU32(b) ==> a == b
  {
    if FromU32(a) == FromU32(b) {
      var ua, ub := FromU32(a), FromU32(b);
      assert BigEndianBytes32(a) == ua[..4] == ub[..4] == BigEndianBytes32(b);
    }
  }

  /** Distinct 16-bit aliases expand to distinct UUIDs. */
  lemma FromU16Injective(a: u16, b: u16)
    ensures FromU16(a) == FromU16(b) ==> a == b
  {
    FromU32Injective(a as u32, b as u32);
  }

  /** Manufacturer-specific data: a 16-bit company identifier and opaque bytes. */
  datatype ManufacturerData = ManufacturerData(companyId: u16, data: seq<byte>)

  /** The normalised advertisement both backends decode into. */
  datatype AdvertisementData = AdvertisementData(
    localName: Option<string>,
    manufacturerData: Option<ManufacturerData>,
    services: seq<Uuid>,
    txPowerLevel: Option<i16>,
    isConnectable: bool,
    solicitedServices: seq<Uuid>,
    serviceData: map<Uuid, seq<byte>>)

  /** One element of a scan stream: the sending device, its decoded advertisement and the
      signal strength, when the platform reported one. */
  datatype AdvertisingDevice<D> = AdvertisingDevice(device: D, advData: AdvertisementData, rssi: Option<i16>)

  /** A change of the adapter's availability. */
  datatype AdapterEvent = Available | Unavailable

  datatype ErrorKind = AdapterUnavailable | AlreadyScanning | NotFound | ConnectionFailed | Internal

  /** The crate's error: converted from a kind, built with `Error::new`, or converted from
      a native (WinRT or Foundation) error identified by its code. */
  datatype Error =
    | FromKind(kind: ErrorKind)
    | New(kind: ErrorKind, lagged: Option<nat>, message: string)
    | FromNative(code: int)
}
