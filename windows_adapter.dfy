/**
 * The decoding and bookkeeping parts of the Windows adapter: advertising-data
 * sections read through a `DataReader` cursor, the normalised advertisement built
 * from the optional native getters, the scan's service filter, and the AQS filter
 * and identifier de-duplication of `connected_devices`.
 */
module WindowsAdapter {
  import opened Wrappers
  import opened Bluetooth

  /** The width of the UUIDs a section carries. */
  datatype UuidKind = U16 | U32 | U128

  function Width(kind: UuidKind): nat {
    match kind
    case U16 => 2
    case U32 => 4
    case U128 => 16
  }

  /** One advertising-data section: its AD type byte and its payload. */
  datatype DataSection = DataSection(dataType: byte, data: seq<byte>)

  /** The UUID read from exactly `Width(kind)` bytes. */
  function DecodeUuid(kind: UuidKind, b: seq<byte>, order: ByteOrder): (u: Uuid)
    requires |b| == Width(kind)
    ensures kind == U128 ==> u == b
    ensures kind != U128 ==> u[4..] == BaseUuidTail
  {
    match kind
    case U16 => FromU16(ReadU16(b, order))
    case U32 => FromU32(ReadU32(b, order))
    case U128 => b
  }

  /** What `read_uuid` yields on a reader whose unconsumed bytes are `rest`. */
  function NextUuid(rest: seq<byte>, kind: UuidKind, order: ByteOrder): (r: Option<Uuid>)
    ensures r.Some? <==> |rest| >= Width(kind)
  {
    if |rest| < Width(kind) then None else Some(DecodeUuid(kind, rest[..Width(kind)], order))
  }

  /** A 128-bit UUID is the next 16 bytes, in order and unchanged. */
  lemma Uuid128Unchanged(rest: seq<byte>, order: ByteOrder)
    requires |rest| >= 16
    ensures NextUuid(rest, U128, order) == Some(rest[..16])
  {
  }

  /** A 32-bit UUID is the four bytes (reversed when read little-endian) in front of
      the base UUID's tail. */
  lemma Uuid32Layout(b: seq<byte>, order: ByteOrder)
    requires |b| == 4
    ensures DecodeUuid(U32, b, order)
         == (if order == BigEndian then b else [b[3], b[2], b[1], b[0]]) + BaseUuidTail
  {
    if order == BigEndian {
      BigEndianBytesOfBe32(b[0], b[1], b[2], b[3]);
    } else {
      BigEndianBytesOfBe32(b[3], b[2], b[1], b[0]);
    }
  }

  /** A 16-bit UUID is two zero bytes, the two bytes (swapped when read little-endian)
      and the base UUID's tail. */
  lemma Uuid16Layout(b: seq<byte>, order: ByteOrder)
    requires |b| == 2
    ensures DecodeUuid(U16, b, order)
         == [0, 0] + (if order == BigEndian then b else [b[1], b[0]]) + BaseUuidTail
  {
    var hi, lo := if order == BigEndian then b[0] else b[1], if order == BigEndian then b[1] else b[0];
    assert Be32(0, 0, hi, lo) == Be16(hi, lo) as u32;
    BigEndianBytesOfBe32(0, 0, hi, lo);
  }

  /** Windows' `DataReader` over one buffer: a cursor that advances as values are read. */
  class DataReader {
    const buffer: seq<byte>
    const byteOrder: ByteOrder
    var position: nat

    ghost predicate Valid()
      reads this
    {
      position <= |buffer|
    }

    /** The bytes not yet read. */
    function Unconsumed(): seq<byte>
      reads this
      requires Valid()
    {
      buffer[position..]
    }

    constructor FromBuffer(buf: seq<byte>, order: ByteOrder)
      ensures Valid() && buffer == buf && byteOrder == order && Unconsumed() == buf
    {
      buffer, byteOrder, position := buf, order, 0;
    }

    function UnconsumedBufferLength(): (n: nat)
      reads this
      requires Valid()
      ensures n == |Unconsumed()|
    {
      |buffer| - position
    }

    /** Reads `n` bytes; fails without moving when fewer remain. */
    method ReadBytes(n: nat) returns (r: Option<seq<byte>>)
      requires Valid()
      modifies this
      ensures Valid()
      ensures n <= |old(Unconsumed())| ==> r == Some(old(Unconsumed())[..n]) && Unconsumed() == old(Unconsumed())[n..]
      ensures n > |old(Unconsumed())| ==> r == None && position == old(position)
    {
      if n <= |buffer| - position {
        assert buffer[position..position + n] == buffer[position..][..n];
        r := Some(buffer[position..position + n]);
        position := position + n;
      } else {
        r := None;
      }
    }

    method ReadUInt16() returns (r: Option<u16>)
      requires Valid()
      modifies this
      ensures Valid()
      ensures r == (if |old(Unconsumed())| >= 2 then Some(ReadU16(old(Unconsumed())[..2], byteOrder)) else None)
      ensures r.Some? ==> Unconsumed() == old(Unconsumed())[2..]
      ensures r.None? ==> position == old(position)
    {
      var b := ReadBytes(2);
      r := if b.Some? then Some(ReadU16(b.value, byteOrder)) else None;
    }

    method ReadUInt32() returns (r: Option<u32>)
      requires Valid()
      modifies this
      ensures Valid()
      ensures r == (if |old(Unconsumed())| >= 4 then Some(ReadU32(old(Unconsumed())[..4], byteOrder)) else None)
      ensures r.Some? ==> Unconsumed() == old(Unconsumed())[4..]
      ensures r.None? ==> position == old(position)
    {
      var b := ReadBytes(4);
      r := if b.Some? then Some(ReadU32(b.value, byteOrder)) else None;
    }
  }

  /** `read_uuid`: one UUID of the given width off the reader. */
  method ReadUuid(reader: DataReader, kind: UuidKind) returns (r: Option<Uuid>)
    requires reader.Valid()
    modifies reader
    ensures reader.Valid()
    ensures r == NextUuid(old(reader.Unconsumed()), kind, reader.byteOrder)
    ensures r.Some? ==> reader.Unconsumed() == old(reader.Unconsumed())[Width(kind)..]
    ensures r.None? ==> reader.position == old(reader.position)
  {
    match kind
    case U16 =>
      var v := reader.ReadUInt16();
      r := if v.Some? then Some(FromU16(v.value)) else None;
    case U32 =>
      var v := reader.ReadUInt32();
      r := if v.Some? then Some(FromU32(v.value)) else None;
    case U128 =>
      var b := reader.ReadBytes(16);
      r := if b.Some? then Some(b.value) else None;
  }

  /** The UUIDs read one after another from `rest` until fewer than a whole one remain. */
  function SectionUuids(rest: seq<byte>, kind: UuidKind, order: ByteOrder): (r: seq<Uuid>)
    ensures r == [] <==> |rest| < Width(kind)
    decreases |rest|
  {
    match NextUuid(rest, kind, order)
    case None => []
    case Some(u) => [u] + SectionUuids(rest[Width(kind)..], kind, order)
  }

  /** Reading one UUID off a section leaves the UUIDs of the remaining bytes. */
  lemma SectionUuidsStep(rest: seq<byte>, kind: UuidKind, order: ByteOrder)
    requires NextUuid(rest, kind, order).Some?
    ensures SectionUuids(rest, kind, order) == [NextUuid(rest, kind, order).value] + SectionUuids(rest[Width(kind)..], kind, order)
  {
  }

  /** A payload of n bytes holds n / w UUIDs of width w: a trailing partial UUID
      contributes nothing. */
  lemma {:induction false} SectionUuidsCount(rest: seq<byte>, kind: UuidKind, order: ByteOrder)
    ensures |SectionUuids(rest, kind, order)| == |rest| / Width(kind)
    decreases |rest|
  {
    if |rest| >= Width(kind) {
      SectionUuidsCount(rest[Width(kind)..], kind, order);
      match kind
      case U16 =>
      case U32 =>
      case U128 =>
    }
  }

  /** The offset of the i-th UUID of width w, built up one width at a time. */
  function Offset(i: nat, w: nat): nat {
    if i == 0 then 0 else Offset(i - 1, w) + w
  }

  lemma {:induction false} OffsetIsProduct(i: nat, w: nat)
    ensures Offset(i, w) == i * w
  {
    if i > 0 {
      OffsetIsProduct(i - 1, w);
      assert i * w == (i - 1) * w + w;
    }
  }

  /** The i-th UUID of a section is read from bytes i*w up to (i+1)*w, in order; `start`
      names the offset i*w. */
  lemma SectionUuidAt(rest: seq<byte>, kind: UuidKind, order: ByteOrder, i: nat, start: nat)
    requires start == i * Width(kind) && start + Width(kind) <= |rest|
    ensures i < |SectionUuids(rest, kind, order)|
    ensures SectionUuids(rest, kind, order)[i] == DecodeUuid(kind, rest[start..start + Width(kind)], order)
  {
    var w := Width(kind);
    OffsetIsProduct(i, w);
    SectionUuidsDrop(rest, kind, order, i);
    SectionUuidsHead(rest[start..], kind, order);
    PrefixOfSuffix(rest, start, w);
  }

  lemma PrefixOfSuffix<T>(s: seq<T>, a: nat, n: nat)
    requires a + n <= |s|
    ensures s[a..][..n] == s[a..a + n]
  {
  }

  /** The first UUID of a section is read from its first w bytes. */
  lemma SectionUuidsHead(rest: seq<byte>, kind: UuidKind, order: ByteOrder)
    requires Width(kind) <= |rest|
    ensures 0 < |SectionUuids(rest, kind, order)|
    ensures SectionUuids(rest, kind, order)[0] == DecodeUuid(kind, rest[..Width(kind)], order)
  {
  }

  /** Past the first UUID, the UUIDs of a section are those of the bytes after it. */
  lemma SectionUuidsShift(rest: seq<byte>, kind: UuidKind, order: ByteOrder, i: nat)
    requires Width(kind) <= |rest|
    requires 0 < i <= |SectionUuids(rest[Width(kind)..], kind, order)|
    ensures i < |SectionUuids(rest, kind, order)|
    ensures SectionUuids(rest, kind, order)[i] == SectionUuids(rest[Width(kind)..], kind, order)[i - 1]
  {
    SectionUuidsStep(rest, kind, order);
  }

  /** The i-th UUID of a section is the first of the bytes from offset i*w on. */
  lemma {:induction false} SectionUuidsDrop(rest: seq<byte>, kind: UuidKind, order: ByteOrder, i: nat)
    requires Offset(i, Width(kind)) + Width(kind) <= |rest|
    ensures i < |SectionUuids(rest, kind, order)|
    ensures 0 < |SectionUuids(rest[Offset(i, Width(kind))..], kind, order)|
    ensures SectionUuids(rest, kind, order)[i] == SectionUuids(rest[Offset(i, Width(kind))..], kind, order)[0]
    decreases i
  {
    var w := Width(kind);
    var off := Offset(i, w);
    if i > 0 {
      var tail := rest[w..];
      var prev := Offset(i - 1, w);
      assert off == prev + w && |tail| == |rest| - w;
      SectionUuidsDrop(tail, kind, order, i - 1);
      assert tail[prev..] == rest[off..];
      SectionUuidsShift(rest, kind, order, i);
    } else {
      assert rest[off..] == rest;
      SectionUuidsStep(rest, kind, order);
    }
  }

  /** The solicitation AD types (Core Specification Supplement, Part A, section 1.10). */
  function SolicitedKind(dataType: byte): (k: Option<UuidKind>)
    ensures k == Some(U16) <==> dataType == 0x14
    ensures k == Some(U128) <==> dataType == 0x15
    ensures k == Some(U32) <==> dataType == 0x1f
  {
    if dataType == 0x14 then Some(U16)
    else if dataType == 0x15 then Some(U128)
    else if dataType == 0x1f then Some(U32)
    else None
  }

  /** The solicited UUIDs one section contributes. */
  function SolicitedOf(section: DataSection, order: ByteOrder): (r: seq<Uuid>)
    ensures r != [] ==>
      SolicitedKind(section.dataType).Some? && |section.data| >= Width(SolicitedKind(section.dataType).value)
  {
    match SolicitedKind(section.dataType)
    case None => []
    case Some(kind) => SectionUuids(section.data, kind, order)
  }

  /** The solicited services of a list of sections: each section's UUIDs, in section order. */
  function SolicitedServices(sections: seq<DataSection>, order: ByteOrder): (r: seq<Uuid>)
    ensures (forall i :: 0 <= i < |sections| ==> SolicitedKind(sections[i].dataType).None?) ==> r == []
  {
    if sections == [] then [] else SolicitedOf(sections[0], order) + SolicitedServices(sections[1..], order)
  }

  /** Sections contribute independently and in order. */
  lemma {:induction false} SolicitedAppend(a: seq<DataSection>, b: seq<DataSection>, order: ByteOrder)
    ensures SolicitedServices(a + b, order) == SolicitedServices(a, order) + SolicitedServices(b, order)
  {
    if a != [] {
      assert (a + b)[0] == a[0] && (a + b)[1..] == a[1..] + b;
      SolicitedAppend(a[1..], b, order);
    } else {
      assert a + b == b;
    }
  }

  /** A single section contributes its own UUIDs. */
  lemma SolicitedSingle(s: DataSection, order: ByteOrder)
    ensures SolicitedServices([s], order) == SolicitedOf(s, order)
  {
    assert [s][1..] == [];
  }

  /** A section whose type is not a solicitation type contributes nothing. */
  lemma SolicitedIgnoresOtherTypes(a: seq<DataSection>, s: DataSection, b: seq<DataSection>, order: ByteOrder)
    requires SolicitedKind(s.dataType).None?
    ensures SolicitedServices(a + [s] + b, order) == SolicitedServices(a + b, order)
  {
    var withS := a + [s];
    SolicitedSingle(s, order);
    SolicitedAppend(a, [s], order);
    assert SolicitedServices(withS, order) == SolicitedServices(a, order);
    SolicitedAppend(withS, b, order);
    SolicitedAppend(a, b, order);
  }

  /** `to_solicited_services`: every section of a solicitation type is read to its end
      through a fresh reader, and the UUIDs are pushed in order. */
  method ToSolicitedServices(sections: seq<DataSection>, order: ByteOrder) returns (solicited: seq<Uuid>)
    ensures solicited == SolicitedServices(sections, order)
  {
    solicited := [];
    for i := 0 to |sections|
      invariant solicited == SolicitedServices(sections[..i], order)
    {
      var data := sections[i];
      var kind := SolicitedKind(data.dataType);
      ghost var before := solicited;
      if kind.Some? {
        var reader := new DataReader.FromBuffer(data.data, order);
        solicited := PushUuids(reader, kind.value, solicited);
      }
      assert solicited == before + SolicitedOf(data, order);
      SolicitedStep(sections, i, order);
    }
    assert sections[..|sections|] == sections;
  }

  lemma SolicitedStep(sections: seq<DataSection>, i: nat, order: ByteOrder)
    requires i < |sections|
    ensures SolicitedServices(sections[..i + 1], order)
         == SolicitedServices(sections[..i], order) + SolicitedOf(sections[i], order)
  {
    SolicitedSingle(sections[i], order);
    assert sections[..i + 1] == sections[..i] + [sections[i]];
    SolicitedAppend(sections[..i], [sections[i]], order);
  }

  /** One iteration of the inner loop keeps the collected and the remaining UUIDs together. */
  lemma PushStep(acc: seq<Uuid>, solicited: seq<Uuid>, start: seq<byte>, rest: seq<byte>, kind: UuidKind, order: ByteOrder)
    requires solicited + SectionUuids(rest, kind, order) == acc + SectionUuids(start, kind, order)
    requires NextUuid(rest, kind, order).Some?
    ensures (solicited + [NextUuid(rest, kind, order).value]) + SectionUuids(rest[Width(kind)..], kind, order)
         == acc + SectionUuids(start, kind, order)
  {
    SectionUuidsStep(rest, kind, order);
  }

  /** The inner loop of `to_solicited_services`: `while let Ok(uuid) = read_uuid(..) { push }`. */
  method PushUuids(reader: DataReader, kind: UuidKind, acc: seq<Uuid>) returns (solicited: seq<Uuid>)
    requires reader.Valid()
    modifies reader
    ensures reader.Valid()
    ensures solicited == acc + SectionUuids(old(reader.Unconsumed()), kind, reader.byteOrder)
  {
    solicited := acc;
    ghost var order := reader.byteOrder;
    ghost var start := reader.Unconsumed();
    while true
      invariant reader.Valid()
      invariant solicited + SectionUuids(reader.Unconsumed(), kind, order) == acc + SectionUuids(start, kind, order)
      decreases |reader.Unconsumed()|
    {
      ghost var rest := reader.Unconsumed();
      var uuid := ReadUuid(reader, kind);
      if uuid.None? {
        break;
      }
      PushStep(acc, solicited, start, rest, kind, order);
      solicited := solicited + [uuid.value];
    }
  }

  /** The service-data AD types (Core Specification Supplement, Part A, section 1.11). */
  function ServiceDataKind(dataType: byte): (k: Option<UuidKind>)
    ensures k == Some(U16) <==> dataType == 0x16
    ensures k == Some(U32) <==> dataType == 0x20
    ensures k == Some(U128) <==> dataType == 0x21
  {
    if dataType == 0x16 then Some(U16)
    else if dataType == 0x20 then Some(U32)
    else if dataType == 0x21 then Some(U128)
    else None
  }

  /** The key and value one section contributes to the service-data map: the leading UUID
      and every byte after it; nothing when the type is not a service-data type or the
      payload is shorter than the key. */
  function ServiceDataEntry(section: DataSection, order: ByteOrder): (e: Option<(Uuid, seq<byte>)>)
    ensures e.Some? <==> ServiceDataKind(section.dataType).Some?
                         && |section.data| >= Width(ServiceDataKind(section.dataType).value)
    ensures e.Some? ==>
      var w := Width(ServiceDataKind(section.dataType).value);
      e.value.0 == DecodeUuid(ServiceDataKind(section.dataType).value, section.data[..w], order) &&
      e.value.1 == section.data[w..] && |e.value.1| == |section.data| - w
  {
    match ServiceDataKind(section.dataType)
    case None => None
    case Some(kind) =>
      match NextUuid(section.data, kind, order)
      case None => None
      case Some(uuid) => Some((uuid, section.data[Width(kind)..]))
  }

  /** The service-data map after inserting the entries of `sections` in order. */
  function ServiceData(sections: seq<DataSection>, order: ByteOrder): map<Uuid, seq<byte>>
    decreases |sections|
  {
    if sections == [] then map[]
    else InsertEntry(ServiceData(sections[..|sections| - 1], order), sections[|sections| - 1], order)
  }

  /** `service_data.insert(uuid, value)` for the section's entry, if it has one. */
  function InsertEntry(m: map<Uuid, seq<byte>>, section: DataSection, order: ByteOrder): map<Uuid, seq<byte>> {
    match ServiceDataEntry(section, order)
    case None => m
    case Some((uuid, value)) => m[uuid := value]
  }

  /** Inserting a section's entry adds its key, overwrites that key's value, and keeps
      every other key and value. */
  lemma InsertEntryLookup(m: map<Uuid, seq<byte>>, section: DataSection, order: ByteOrder, u: Uuid)
    ensures u in InsertEntry(m, section, order) <==> u in m || HasKey(section, u, order)
    ensures HasKey(section, u, order) ==> InsertEntry(m, section, order)[u] == ServiceDataEntry(section, order).value.1
    ensures u in m && !HasKey(section, u, order) ==> InsertEntry(m, section, order)[u] == m[u]
  {
  }

  lemma ServiceDataSnoc(sections: seq<DataSection>, s: DataSection, order: ByteOrder)
    ensures ServiceData(sections + [s], order) == InsertEntry(ServiceData(sections, order), s, order)
  {
    assert (sections + [s])[..|sections|] == sections;
  }

  /** Section `i` is the last one whose entry has key `u`. */
  ghost predicate LastEntryFor(sections: seq<DataSection>, i: int, u: Uuid, order: ByteOrder) {
    && 0 <= i < |sections|
    && ServiceDataEntry(sections[i], order).Some?
    && ServiceDataEntry(sections[i], order).value.0 == u
    && forall j :: i < j < |sections| ==> !HasKey(sections[j], u, order)
  }

  predicate HasKey(section: DataSection, u: Uuid, order: ByteOrder) {
    ServiceDataEntry(section, order).Some? && ServiceDataEntry(section, order).value.0 == u
  }

  /** A UUID is a key of the service-data map iff some section's entry has it. */
  lemma {:induction false} ServiceDataLookup(sections: seq<DataSection>, u: Uuid, order: ByteOrder)
    ensures u in ServiceData(sections, order) <==> exists i :: 0 <= i < |sections| && HasKey(sections[i], u, order)
    decreases |sections|
  {
    if sections != [] {
      var n := |sections| - 1;
      var prefix, last := sections[..n], sections[n];
      assert sections == prefix + [last];
      ServiceDataSnoc(prefix, last, order);
      ServiceDataLookup(prefix, u, order);
      assert forall i :: 0 <= i < n ==> prefix[i] == sections[i];
      if HasKey(last, u, order) {
        assert u in ServiceData(sections, order);
      } else {
        assert u in ServiceData(sections, order) <==> u in ServiceData(prefix, order);
      }
    }
  }

  /** The value of a key is that of the LAST section whose entry has it: later sections
      overwrite earlier ones. */
  lemma {:induction false} ServiceDataLastWins(sections: seq<DataSection>, u: Uuid, order: ByteOrder, i: int)
    requires LastEntryFor(sections, i, u, order)
    ensures u in ServiceData(sections, order)
    ensures ServiceData(sections, order)[u] == ServiceDataEntry(sections[i], order).value.1
    decreases |sections|
  {
    var n := |sections| - 1;
    var prefix, last := sections[..n], sections[n];
    assert sections == prefix + [last];
    ServiceDataSnoc(prefix, last, order);
    if i < n {
      assert !HasKey(last, u, order);
      assert prefix[i] == sections[i];
      assert forall j :: i < j < n ==> prefix[j] == sections[j];
      ServiceDataLastWins(prefix, u, order, i);
    }
  }

  /** A section that contributes no entry leaves the map as if it were absent. */
  lemma {:induction false} ServiceDataSkips(a: seq<DataSection>, s: DataSection, b: seq<DataSection>, order: ByteOrder)
    requires ServiceDataEntry(s, order).None?
    ensures ServiceData(a + [s] + b, order) == ServiceData(a + b, order)
    decreases |b|
  {
    if b == [] {
      ServiceDataSnoc(a, s, order);
      assert a + [s] + b == a + [s] && a + b == a;
    } else {
      var b', last := b[..|b| - 1], b[|b| - 1];
      ServiceDataSkips(a, s, b', order);
      assert a + [s] + b == (a + [s] + b') + [last];
      assert a + b == (a + b') + [last];
      ServiceDataSnoc(a + [s] + b', last, order);
      ServiceDataSnoc(a + b', last, order);
    }
  }

  /** `to_service_data`: for each service-data section, read the key through a fresh
      reader, then read every unconsumed byte as the value and insert it. */
  method ToServiceData(sections: seq<DataSection>, order: ByteOrder) returns (serviceData: map<Uuid, seq<byte>>)
    ensures serviceData == ServiceData(sections, order)
  {
    serviceData := map[];
    for i := 0 to |sections|
      invariant serviceData == ServiceData(sections[..i], order)
    {
      serviceData := InsertSection(serviceData, sections[i], order);
      assert sections[..i + 1] == sections[..i] + [sections[i]];
      ServiceDataSnoc(sections[..i], sections[i], order);
    }
    assert sections[..|sections|] == sections;
  }

  /** The body of the loop of `to_service_data` for one section. */
  method InsertSection(serviceData: map<Uuid, seq<byte>>, data: DataSection, order: ByteOrder)
    returns (m: map<Uuid, seq<byte>>)
    ensures m == InsertEntry(serviceData, data, order)
  {
    m := serviceData;
    var kind := ServiceDataKind(data.dataType);
    if kind.Some? {
      var entry := ReadSection(data, kind.value, order);
      if entry.Some? {
        m := m[entry.value.0 := entry.value.1];
      }
    }
  }

  /** The reads of one loop iteration: the key through a fresh reader, then every
      unconsumed byte as the value. */
  method ReadSection(data: DataSection, kind: UuidKind, order: ByteOrder) returns (entry: Option<(Uuid, seq<byte>)>)
    requires ServiceDataKind(data.dataType) == Some(kind)
    ensures entry == ServiceDataEntry(data, order)
  {
    var reader := new DataReader.FromBuffer(data.data, order);
    var uuid := ReadUuid(reader, kind);
    ReadEntry(data, kind, order);
    if uuid.None? {
      return None;
    }
    var len := reader.UnconsumedBufferLength();
    var value := reader.ReadBytes(len);
    if value.None? {
      return None;
    }
    assert value.value == data.data[Width(kind)..];
    entry := Some((uuid.value, value.value));
  }

  /** The entry of a service-data section is what reading its key and then the rest gives. */
  lemma ReadEntry(data: DataSection, kind: UuidKind, order: ByteOrder)
    requires ServiceDataKind(data.dataType) == Some(kind)
    ensures NextUuid(data.data, kind, order).None? ==> ServiceDataEntry(data, order).None?
    ensures NextUuid(data.data, kind, order).Some? ==>
      ServiceDataEntry(data, order) == Some((NextUuid(data.data, kind, order).value, data.data[Width(kind)..]))
  {
  }

  /** A `BluetoothLEManufacturerData` as seen through its two fallible getters. */
  datatype NativeManufacturerData = NativeManufacturerData(companyId: Option<u16>, data: Option<seq<byte>>)

  /** `ManufacturerData::try_from`: the company id and every byte of the data buffer, in order;
      fails when either getter fails. */
  function ManufacturerDataTryFrom(native: NativeManufacturerData): (r: Option<ManufacturerData>)
    ensures r.Some? <==> native.companyId.Some? && native.data.Some?
    ensures r.Some? ==> r.value.companyId == native.companyId.value && r.value.data == native.data.value
  {
    match (native.companyId, native.data)
    case (Some(companyId), Some(data)) => Some(ManufacturerData(companyId, data))
    case _ => None
  }

  /** A `BluetoothLEAdvertisement`: each getter either fails (None) or yields its value. */
  datatype NativeAdvertisement = NativeAdvertisement(
    localName: Option<string>,
    manufacturerData: Option<seq<NativeManufacturerData>>,
    serviceUuids: Option<seq<Uuid>>,
    dataSections: Option<seq<DataSection>>)

  /** The fields of `BluetoothLEAdvertisementReceivedEventArgs` the decoder uses.
      `transmitPowerLevel` is the getter's result wrapping the optional reference's value. */
  datatype ReceivedEventArgs = ReceivedEventArgs(
    isConnectable: Option<bool>,
    transmitPowerLevel: Option<Option<i16>>,
    advertisement: Option<NativeAdvertisement>)

  /** The first manufacturer-data entry, when the list getter succeeds and the list is not empty. */
  function FirstManufacturerData(list: Option<seq<NativeManufacturerData>>): (r: Option<ManufacturerData>)
    ensures r.Some? <==> list.Some? && |list.value| > 0 && ManufacturerDataTryFrom(list.value[0]).Some?
    ensures r.Some? ==> r == ManufacturerDataTryFrom(list.value[0])
  {
    match list
    case Some(entries) => if |entries| > 0 then ManufacturerDataTryFrom(entries[0]) else None
    case None => None
  }

  /** `AdvertisementData::from`: normalises the native getters with their fallbacks. */
  function AdvertisementFrom(args: ReceivedEventArgs, order: ByteOrder): (a: AdvertisementData)
    ensures a.isConnectable <==> args.isConnectable == Some(true)
    ensures a.txPowerLevel.Some? <==> args.transmitPowerLevel.Some? && args.transmitPowerLevel.value.Some?
    ensures a.txPowerLevel.Some? ==> a.txPowerLevel == args.transmitPowerLevel.value
    ensures args.advertisement.None? ==>
      a.localName.None? && a.manufacturerData.None? && a.services == [] && a.solicitedServices == [] && a.serviceData == map[]
    ensures a.localName.Some? <==>
      args.advertisement.Some? && args.advertisement.value.localName.Some? && args.advertisement.value.localName.value != []
    ensures a.localName.Some? ==> a.localName == args.advertisement.value.localName
    ensures a.manufacturerData.Some? ==>
      args.advertisement.Some? && a.manufacturerData == FirstManufacturerData(args.advertisement.value.manufacturerData)
    ensures args.advertisement.Some? ==>
      var adv := args.advertisement.value;
      && a.manufacturerData == FirstManufacturerData(adv.manufacturerData)
      && a.services == (if adv.serviceUuids.Some? then adv.serviceUuids.value else [])
      && a.solicitedServices == (if adv.dataSections.Some? then SolicitedServices(adv.dataSections.value, order) else [])
      && a.serviceData == (if adv.dataSections.Some? then ServiceData(adv.dataSections.value, order) else map[])
  {
    var isConnectable := if args.isConnectable.Some? then args.isConnectable.value else false;
    var txPowerLevel := if args.transmitPowerLevel.Some? then args.transmitPowerLevel.value else None;
    match args.advertisement
    case None =>
      AdvertisementData(None, None, [], txPowerLevel, isConnectable, [], map[])
    case Some(adv) =>
      var localName := if adv.localName.Some? && adv.localName.value != [] then adv.localName else None;
      var services := if adv.serviceUuids.Some? then adv.serviceUuids.value else [];
      var solicited := if adv.dataSections.Some? then SolicitedServices(adv.dataSections.value, order) else [];
      var serviceData := if adv.dataSections.Some? then ServiceData(adv.dataSections.value, order) else map[];
      AdvertisementData(localName, FirstManufacturerData(adv.manufacturerData), services, txPowerLevel,
                        isConnectable, solicited, serviceData)
  }

  /** Manufacturer entries after the first never influence the decoded advertisement. */
  lemma OnlyFirstManufacturerData(adv: NativeAdvertisement, first: NativeManufacturerData,
                                  rest: seq<NativeManufacturerData>, args: ReceivedEventArgs, order: ByteOrder)
    requires args.advertisement == Some(adv.(manufacturerData := Some([first] + rest)))
    ensures AdvertisementFrom(args, order)
         == AdvertisementFrom(args.(advertisement := Some(adv.(manufacturerData := Some([first])))), order)
  {
  }

  /** Some requested UUID is among the advertised ones. */
  function AnyAdvertised(wanted: seq<Uuid>, advertised: seq<Uuid>): (r: bool)
    ensures r <==> exists i :: 0 <= i < |wanted| && wanted[i] in advertised
  {
    if wanted == [] then false
    else wanted[0] in advertised || AnyAdvertised(wanted[1..], advertised)
  }

  /** The scan's filter: with no requested services every advertisement passes, otherwise
      one must advertise some requested service. */
  function ScanFilter(services: seq<Uuid>, adv: AdvertisementData): (pass: bool)
    ensures pass <==> services == [] || exists i :: 0 <= i < |services| && services[i] in adv.services
  {
    services == [] || AnyAdvertised(services, adv.services)
  }

  /** The filter accepts exactly the advertisements that share a service with the request,
      whatever the order of either list. */
  lemma ScanFilterShares(services: seq<Uuid>, adv: AdvertisementData)
    requires services != []
    ensures ScanFilter(services, adv) <==> exists u :: u in services && u in adv.services
  {
    if ScanFilter(services, adv) {
      var i :| 0 <= i < |services| && services[i] in adv.services;
      assert services[i] in services;
    }
  }

  /** The separator `connected_devices` puts between AQS selectors. */
  const OrSeparator: string := " OR "

  /** `parts` without its leading empty strings. */
  function DropLeadingEmpty(parts: seq<string>): (r: seq<string>)
    ensures r == [] || r[0] != []
    ensures (forall i :: 0 <= i < |parts| ==> parts[i] != []) ==> r == parts
  {
    if parts == [] then []
    else if parts[0] == [] then DropLeadingEmpty(parts[1..])
    else parts
  }

  /** What is dropped is exactly the leading empty parts: the result is a suffix of
      `parts`, every part before it is empty, and it starts with a non-empty part unless
      nothing is left. */
  lemma {:induction false} DropLeadingEmptySuffix(parts: seq<string>)
    ensures exists k :: 0 <= k <= |parts| && DropLeadingEmpty(parts) == parts[k..]
                        && forall j :: 0 <= j < k ==> parts[j] == []
    decreases |parts|
  {
    if parts == [] {
      assert DropLeadingEmpty(parts) == parts[0..];
    } else if parts[0] == [] {
      DropLeadingEmptySuffix(parts[1..]);
      var k :| 0 <= k <= |parts[1..]| && DropLeadingEmpty(parts[1..]) == parts[1..][k..]
               && forall j :: 0 <= j < k ==> parts[1..][j] == [];
      assert parts[1..][k..] == parts[k + 1..];
      assert forall j :: 0 <= j < k + 1 ==> parts[j] == [] by {
        forall j | 0 <= j < k + 1 ensures parts[j] == [] {
          if j > 0 { assert parts[j] == parts[1..][j - 1]; }
        }
      }
    } else {
      assert DropLeadingEmpty(parts) == parts[0..];
    }
  }

  /** Appending a part: once a non-empty part has been seen every part is kept. */
  lemma {:induction false} DropLeadingEmptySnoc(parts: seq<string>, x: string)
    ensures DropLeadingEmpty(parts + [x])
         == if DropLeadingEmpty(parts) == [] then (if x == [] then [] else [x]) else DropLeadingEmpty(parts) + [x]
  {
    if parts != [] {
      assert (parts + [x])[1..] == parts[1..] + [x];
      assert (parts + [x])[0] == parts[0];
      DropLeadingEmptySnoc(parts[1..], x);
    } else {
      assert parts + [x] == [x];
      assert [x][1..] == [];
    }
  }

  /** `parts` joined by " OR ". */
  function Join(parts: seq<string>): string
    decreases |parts|
  {
    if |parts| == 0 then []
    else if |parts| == 1 then parts[0]
    else Join(parts[..|parts| - 1]) + OrSeparator + parts[|parts| - 1]
  }

  /** The join starts with the first part and ends with the last, so a separator sits at
      either end only when the part at that end is empty. */
  lemma {:induction false} JoinEnds(parts: seq<string>)
    requires parts != []
    ensures parts[0] <= Join(parts)
    ensures |parts[|parts| - 1]| <= |Join(parts)|
    ensures Join(parts)[|Join(parts)| - |parts[|parts| - 1]|..] == parts[|parts| - 1]
    decreases |parts|
  {
    if |parts| > 1 {
      var init := parts[..|parts| - 1];
      JoinEnds(init);
      assert init[0] == parts[0];
    }
  }

  /** The join is as long as the parts together plus one separator between each two. */
  lemma {:induction false} JoinLength(parts: seq<string>)
    requires parts != []
    ensures |Join(parts)| == TotalLength(parts) + |OrSeparator| * (|parts| - 1)
    decreases |parts|
  {
    if |parts| > 1 {
      JoinLength(parts[..|parts| - 1]);
    }
  }

  function TotalLength(parts: seq<string>): nat
    decreases |parts|
  {
    if parts == [] then 0 else TotalLength(parts[..|parts| - 1]) + |parts[|parts| - 1]|
  }

  /** The AQS selector of each requested service, in request order. */
  function Selectors(services: seq<Uuid>, selector: Uuid -> string): (r: seq<string>)
    ensures |r| == |services| && forall i :: 0 <= i < |services| ==> r[i] == selector(services[i])
  {
    seq(|services|, i requires 0 <= i < |services| => selector(services[i]))
  }

  /** One iteration of the AQS loop: the separator goes in only when the filter built so
      far is non-empty. */
  lemma AqsStep(prefix: seq<string>, next: string)
    ensures Join(DropLeadingEmpty(prefix + [next])) ==
      if Join(DropLeadingEmpty(prefix)) != [] then Join(DropLeadingEmpty(prefix)) + OrSeparator + next else next
  {
    var done := DropLeadingEmpty(prefix);
    DropLeadingEmptySnoc(prefix, next);
    if done != [] {
      JoinEnds(done);
      assert Join(done) != [];
      assert (done + [next])[..|done|] == done;
      assert Join(done + [next]) == Join(done) + OrSeparator + next;
    }
  }

  /** The AQS filter of `connected_devices`: a separator is pushed before a selector only
      when the filter is not empty yet, so leading empty selectors vanish and the rest
      are joined by " OR ", empty ones included. */
  method AqsFilter(services: seq<Uuid>, selector: Uuid -> string) returns (filter: string)
    ensures filter == Join(DropLeadingEmpty(Selectors(services, selector)))
  {
    var selectors := Selectors(services, selector);
    filter := [];
    for i := 0 to |services|
      invariant filter == Join(DropLeadingEmpty(selectors[..i]))
    {
      if filter != [] {
        filter := filter + OrSeparator;
      }
      var next := selector(services[i]);
      filter := filter + next;
      assert selectors[..i + 1] == selectors[..i] + [next];
      AqsStep(selectors[..i], next);
    }
    assert selectors[..|services|] == selectors;
  }

  /** A device identifier (`DeviceId(OsString)`). */
  type DeviceId = string

  /** The identifiers looked up from the found services: the first failed lookup is the
      error; otherwise the set of every identifier found. */
  function AepIdSet(lookups: seq<Result<DeviceId, int>>): (r: Result<set<DeviceId>, Error>)
    ensures r.Ok? <==> forall i :: 0 <= i < |lookups| ==> lookups[i].Ok?
    ensures r.Ok? ==> forall id :: id in r.value <==> exists i :: 0 <= i < |lookups| && lookups[i] == Ok(id)
    ensures r.Err? ==> exists k :: 0 <= k < |lookups| && lookups[k].Err? && r.error == FromNative(lookups[k].error)
                                   && forall j :: 0 <= j < k ==> lookups[j].Ok?
    decreases |lookups|
  {
    if lookups == [] then Ok({})
    else
      var init := lookups[..|lookups| - 1];
      assert forall i :: 0 <= i < |init| ==> init[i] == lookups[i];
      match AepIdSet(init)
      case Err(e) => Err(e)
      case Ok(ids) =>
        match lookups[|lookups| - 1]
        case Err(code) => Err(FromNative(code))
        case Ok(id) => Ok(ids + {id})
  }

  /** The first loop of `connected_devices` with a filter: insert each looked-up identifier
      into a set, so that each distinct identifier is kept once. */
  method CollectDeviceIds(lookups: seq<Result<DeviceId, int>>) returns (r: Result<set<DeviceId>, Error>)
    ensures r == AepIdSet(lookups)
  {
    var deviceIds: set<DeviceId> := {};
    for i := 0 to |lookups|
      invariant AepIdSet(lookups[..i]) == Ok(deviceIds)
    {
      assert lookups[..i + 1][..i] == lookups[..i];
      match lookups[i]
      case Err(code) =>
        assert AepIdSet(lookups[..i + 1]) == Err(FromNative(code));
        AepIdSetErrSticks(lookups, i + 1);
        return Err(FromNative(code));
      case Ok(id) =>
        deviceIds := deviceIds + {id};
    }
    assert lookups[..|lookups|] == lookups;
    r := Ok(deviceIds);
  }

  /** Once a prefix fails, the whole list fails with the same error. */
  lemma {:induction false} AepIdSetErrSticks(lookups: seq<Result<DeviceId, int>>, k: nat)
    requires k <= |lookups| && AepIdSet(lookups[..k]).Err?
    ensures AepIdSet(lookups) == AepIdSet(lookups[..k])
    decreases |lookups| - k
  {
    if k < |lookups| {
      assert lookups[..k + 1][..k] == lookups[..k];
      AepIdSetErrSticks(lookups, k + 1);
    } else {
      assert lookups[..k] == lookups;
    }
  }

  /** Opening each identifier in turn, stopping at the first failure (`res.push(Device::from_id(id).await?)`). */
  function OpenAll<D>(ids: seq<DeviceId>, fromId: DeviceId -> Result<D, Error>): (r: Result<seq<D>, Error>)
    ensures r.Ok? <==> forall i :: 0 <= i < |ids| ==> fromId(ids[i]).Ok?
    ensures r.Ok? ==> |r.value| == |ids| && forall i :: 0 <= i < |ids| ==> r.value[i] == fromId(ids[i]).value
    ensures r.Err? ==> exists k :: 0 <= k < |ids| && fromId(ids[k]) == Err(r.error)
                                   && forall j :: 0 <= j < k ==> fromId(ids[j]).Ok?
    decreases |ids|
  {
    if ids == [] then Ok([])
    else
      var init := ids[..|ids| - 1];
      assert forall i :: 0 <= i < |init| ==> init[i] == ids[i];
      match OpenAll(init, fromId)
      case Err(e) => Err(e)
      case Ok(devices) =>
        match fromId(ids[|ids| - 1])
        case Err(e) => Err(e)
        case Ok(device) => Ok(devices + [device])
  }

  predicate NoDuplicates<T(==)>(s: seq<T>) {
    forall i, j :: 0 <= i < j < |s| ==> s[i] != s[j]
  }

  /** The iteration order of a hash set: every element once, in an order the model leaves open. */
  method Enumerate(ids: set<DeviceId>) returns (order: seq<DeviceId>)
    ensures NoDuplicates(order)
    ensures forall id :: id in order <==> id in ids
    ensures |order| == |ids|
  {
    order := [];
    var remaining := ids;
    while remaining != {}
      invariant remaining <= ids && NoDuplicates(order)
      invariant forall id :: id in order <==> id in ids && id !in remaining
      invariant |order| + |remaining| == |ids|
      decreases remaining
    {
      var id :| id in remaining;
      order := order + [id];
      remaining := remaining - {id};
    }
  }

  /** `connected_devices`. With no services: open every connected device in the order the
      query lists them. With services: query the services matching the AQS filter, collect
      their device identifiers into a set, and open each distinct identifier once, in the
      set's iteration order `order`. */
  method ConnectedDevices<D>(services: seq<Uuid>, selector: Uuid -> string,
                             findServices: string -> seq<Result<DeviceId, int>>,
                             connected: seq<DeviceId>, fromId: DeviceId -> Result<D, Error>)
    returns (r: Result<seq<D>, Error>, order: seq<DeviceId>)
    ensures services == [] ==> order == connected && r == OpenAll(connected, fromId)
    ensures services != [] ==>
      match AepIdSet(findServices(Join(DropLeadingEmpty(Selectors(services, selector)))))
      case Err(e) => r == Err(e) && order == []
      case Ok(ids) => NoDuplicates(order) && (forall id :: id in order <==> id in ids) && r == OpenAll(order, fromId)
  {
    if services != [] {
      var aqsFilter := AqsFilter(services, selector);
      var found := findServices(aqsFilter);
      var deviceIds := CollectDeviceIds(found);
      if deviceIds.Err? {
        return Err(deviceIds.error), [];
      }
      order := Enumerate(deviceIds.value);
      r := OpenEach(order, fromId);
    } else {
      order := connected;
      r := OpenEach(connected, fromId);
    }
  }

  /** The loop that opens each identifier and pushes the device, returning the first error. */
  method OpenEach<D>(ids: seq<DeviceId>, fromId: DeviceId -> Result<D, Error>) returns (r: Result<seq<D>, Error>)
    ensures r == OpenAll(ids, fromId)
  {
    var res: seq<D> := [];
    for i := 0 to |ids|
      invariant OpenAll(ids[..i], fromId) == Ok(res)
    {
      assert ids[..i + 1][..i] == ids[..i];
      var device := fromId(ids[i]);
      if device.Err? {
        OpenAllErrSticks(ids, i + 1, fromId);
        return Err(device.error);
      }
      res := res + [device.value];
    }
    assert ids[..|ids|] == ids;
    r := Ok(res);
  }

  /** Once opening a prefix fails, opening the whole list fails with the same error. */
  lemma {:induction false} OpenAllErrSticks<D>(ids: seq<DeviceId>, k: nat, fromId: DeviceId -> Result<D, Error>)
    requires k <= |ids| && OpenAll(ids[..k], fromId).Err?
    ensures OpenAll(ids, fromId) == OpenAll(ids[..k], fromId)
    decreases |ids| - k
  {
    if k < |ids| {
      assert ids[..k + 1][..k] == ids[..k];
      OpenAllErrSticks(ids, k + 1, fromId);
    } else {
      assert ids[..k] == ids;
    }
  }
}
