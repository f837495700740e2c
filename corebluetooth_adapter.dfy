/**
 * The protocol layer of the CoreBluetooth adapter. The central delegate publishes
 * `CentralEvent`s on a broadcast channel; a subscription is modelled as the finite
 * sequence of items it yields, each an event or a lag report, paired with the
 * central manager's state read when the item is handled. Over such sequences the
 * model gives `events`, `wait_available` and the `scan` stream as functions, the
 * request/response loops of `connect_device` and `disconnect_device` as methods,
 * and the single-flight `scanning` flag as a field of the `Adapter` class.
 */
module CoreBluetoothAdapter {
  import opened Wrappers
  import opened Bluetooth

  /** `CBManagerState`. */
  datatype ManagerState = Unknown | Resetting | Unsupported | Unauthorized | PoweredOff | PoweredOn

  /** A `CBPeripheral`, compared by native identity. */
  datatype Peripheral = Peripheral(identity: nat)

  /** The CoreBluetooth `Device`: a wrapped peripheral. */
  datatype Device = Device(peripheral: Peripheral)

  /** The advertisement dictionary a discovery carries, as key/value pairs. */
  type AdvertisementDictionary = map<string, seq<byte>>

  /** What the central delegate publishes; a native error is identified by its code. */
  datatype CentralEvent =
    | StateChanged
    | Discovered(peripheral: Peripheral, advData: AdvertisementDictionary, rssi: i16)
    | Connect(peripheral: Peripheral)
    | ConnectFailed(peripheral: Peripheral, error: Option<int>)
    | Disconnect(peripheral: Peripheral, error: Option<int>)

  /** What a broadcast receiver yields: an event, or the report that `missed` events were lost. */
  datatype Received = Event(event: CentralEvent) | Lagged(missed: nat)

  /** One item of a subscription and the manager's state observed when it is handled. */
  datatype Item = Item(received: Received, state: ManagerState)

  // ---------------------------------------------------------------- events

  /** The `filter_map` step of `events`. */
  function AdapterEventOf(item: Item): (r: Option<Result<AdapterEvent, Error>>)
    ensures r.Some? <==> item.received == Event(StateChanged) || item.received.Lagged?
    ensures r == Some(Ok(Available)) <==> item.received == Event(StateChanged) && item.state == PoweredOn
    ensures item.received.Lagged? ==> r.Some? && r.value.Err? && r.value.error.New? && r.value.error.lagged == Some(item.received.missed)
  {
    match item.received
    case Event(StateChanged) => Some(Ok(if item.state == PoweredOn then Available else Unavailable))
    case Event(_) => None
    case Lagged(missed) => Some(Err(New(Internal, Some(missed), "adapter event stream")))
  }

  /** `events`: the stream of availability changes of one subscription. */
  function Events(items: seq<Item>): (r: seq<Result<AdapterEvent, Error>>)
    ensures |r| <= |items|
  {
    if items == [] then []
    else
      (match AdapterEventOf(items[0]) case None => [] case Some(x) => [x]) + Events(items[1..])
  }

  lemma {:induction false} EventsAppend(a: seq<Item>, b: seq<Item>)
    ensures Events(a + b) == Events(a) + Events(b)
  {
    if a != [] {
      assert (a + b)[0] == a[0] && (a + b)[1..] == a[1..] + b;
      EventsAppend(a[1..], b);
    } else {
      assert a + b == b;
    }
  }

  /** `StateChanged` becomes `Available` exactly when it is handled while powered on and
      `Unavailable` otherwise, a lag becomes an `Internal` error, and every other event
      is dropped: an element is in the stream iff some item maps to it. */
  lemma {:induction false} EventsMembers(items: seq<Item>, x: Result<AdapterEvent, Error>)
    ensures x in Events(items) <==> exists i :: 0 <= i < |items| && AdapterEventOf(items[i]) == Some(x)
  {
    if items != [] {
      EventsMembers(items[1..], x);
      assert forall i :: 1 <= i < |items| ==> items[1..][i - 1] == items[i];
      if x in Events(items[1..]) {
        var i :| 0 <= i < |items[1..]| && AdapterEventOf(items[1..][i]) == Some(x);
        assert AdapterEventOf(items[i + 1]) == Some(x);
      }
    }
  }

  /** An item whose event is neither `StateChanged` nor a lag leaves the stream unchanged. */
  lemma EventsDropsOthers(a: seq<Item>, x: Item, b: seq<Item>)
    requires x.received.Event? && !x.received.event.StateChanged?
    ensures Events(a + [x] + b) == Events(a + b)
  {
    EventsAppend(a + [x], b);
    EventsAppend(a, [x]);
    EventsAppend(a, b);
    assert Events([x]) == [] by {
      assert [x][1..] == [];
    }
  }

  // ---------------------------------------------------------------- wait_available

  /** `skip_while(|x| x.is_ok() && !matches!(x, Ok(Available))).next()`. */
  function FirstNotSkipped(events: seq<Result<AdapterEvent, Error>>): (r: Option<Result<AdapterEvent, Error>>)
    ensures r.Some? ==> r.value in events && (r.value.Err? || r.value.value == Available)
    ensures r.None? <==> forall i :: 0 <= i < |events| ==> events[i].Ok? && events[i].value != Available
  {
    if events == [] then None
    else if events[0].Ok? && events[0].value != Available then FirstNotSkipped(events[1..])
    else Some(events[0])
  }

  const StreamClosed: Error := New(Internal, None, "adapter event stream closed unexpectedly")

  /** `wait_available`: Ok at once when powered on; otherwise wait for the first item of
      `events` that is not `Ok(Unavailable)`, and fail `Internal` if the stream ends. */
  function WaitAvailable(state: ManagerState, items: seq<Item>): (r: Result<(), Error>)
    ensures state == PoweredOn ==> r.Ok?
    ensures r.Err? ==> r.error == StreamClosed || Err(r.error) in Events(items)
  {
    if state == PoweredOn then Ok(())
    else
      match FirstNotSkipped(Events(items))
      case None => Err(StreamClosed)
      case Some(Err(e)) => Err(e)
      case Some(Ok(_)) => Ok(())
  }

  /** The item is passed over by `wait_available`: it yields nothing or `Ok(Unavailable)`. */
  predicate WaitSkips(item: Item) {
    AdapterEventOf(item).None? || AdapterEventOf(item) == Some(Ok(Unavailable))
  }

  /** The items `wait_available` passes over contribute only `Ok(Unavailable)`. */
  lemma {:induction false} SkippedEvents(a: seq<Item>)
    requires forall j :: 0 <= j < |a| ==> WaitSkips(a[j])
    ensures forall i :: 0 <= i < |Events(a)| ==> Events(a)[i] == Ok(Unavailable)
  {
    if a != [] {
      SkippedEvents(a[1..]);
      assert WaitSkips(a[0]);
    }
  }

  lemma {:induction false} SkipLeadingUnavailable(xs: seq<Result<AdapterEvent, Error>>, ys: seq<Result<AdapterEvent, Error>>)
    requires forall i :: 0 <= i < |xs| ==> xs[i] == Ok(Unavailable)
    ensures FirstNotSkipped(xs + ys) == FirstNotSkipped(ys)
  {
    if xs != [] {
      assert (xs + ys)[0] == xs[0] && (xs + ys)[1..] == xs[1..] + ys;
      SkipLeadingUnavailable(xs[1..], ys);
    } else {
      assert xs + ys == ys;
    }
  }

  lemma SkipUnavailable(a: seq<Item>, b: seq<Item>)
    requires forall j :: 0 <= j < |a| ==> WaitSkips(a[j])
    ensures FirstNotSkipped(Events(a + b)) == FirstNotSkipped(Events(b))
  {
    EventsAppend(a, b);
    SkippedEvents(a);
    SkipLeadingUnavailable(Events(a), Events(b));
  }

  /** When not powered on, `wait_available` is decided by the first item `k` it does not
      pass over: Ok at an `Available`, the lag's `Internal` error at a lag, and the
      stream-closed error when every item is passed over. Nothing after item `k` matters. */
  lemma WaitAvailableAt(state: ManagerState, items: seq<Item>, k: nat)
    requires state != PoweredOn
    requires k <= |items| && forall j :: 0 <= j < k ==> WaitSkips(items[j])
    requires k < |items| ==> !WaitSkips(items[k])
    ensures k == |items| ==> WaitAvailable(state, items) == Err(StreamClosed)
    ensures k < |items| && items[k].received.Lagged? ==>
      WaitAvailable(state, items) == Err(New(Internal, Some(items[k].received.missed), "adapter event stream"))
    ensures k < |items| && items[k].received.Event? ==>
      items[k].received.event == StateChanged && items[k].state == PoweredOn && WaitAvailable(state, items) == Ok(())
  {
    assert items == items[..k] + items[k..];
    SkipUnavailable(items[..k], items[k..]);
    if k < |items| {
      assert Events(items[k..]) == [AdapterEventOf(items[k]).value] + Events(items[k + 1..]) by {
        assert items[k..][1..] == items[k + 1..];
      }
    }
  }

  /** Already powered on, `wait_available` returns Ok without reading the subscription. */
  lemma WaitAvailablePoweredOn(items: seq<Item>)
    ensures WaitAvailable(PoweredOn, items) == WaitAvailable(PoweredOn, []) == Ok(())
  {
  }

  // ---------------------------------------------------------------- scan stream

  /** The `filter_map` step of the scan stream. */
  function DiscoveredOf(item: Item, fromDictionary: AdvertisementDictionary -> AdvertisementData)
    : (r: Option<AdvertisingDevice<Device>>)
    ensures r.Some? <==> item.received.Event? && item.received.event.Discovered?
    ensures r.Some? ==>
      var e := item.received.event;
      r.value.device == Device(e.peripheral) && r.value.advData == fromDictionary(e.advData) && r.value.rssi == Some(e.rssi)
  {
    match item.received
    case Event(Discovered(peripheral, advData, rssi)) =>
      Some(AdvertisingDevice(Device(peripheral), fromDictionary(advData), Some(rssi)))
    case _ => None
  }

  /** The scan stream: `take_while` the manager is powered on, then keep the discoveries.
      Each element comes from a discovery handled while powered on, with every earlier
      item handled while powered on too, and carries a signal strength. */
  function ScanStream(items: seq<Item>, fromDictionary: AdvertisementDictionary -> AdvertisementData)
    : (r: seq<AdvertisingDevice<Device>>)
    ensures |r| <= |items|
    ensures forall d :: d in r ==> d.rssi.Some?
    ensures forall d :: d in r ==>
              exists i :: 0 <= i < |items| && DiscoveredOf(items[i], fromDictionary) == Some(d) &&
                          (forall j :: 0 <= j <= i ==> items[j].state == PoweredOn)
  {
    if items == [] || items[0].state != PoweredOn then []
    else
      var rest := ScanStream(items[1..], fromDictionary);
      assert forall i :: 1 <= i < |items| ==> items[1..][i - 1] == items[i];
      (match DiscoveredOf(items[0], fromDictionary) case None => [] case Some(d) => [d]) + rest
  }

  /** The stream ends at the first item handled while not powered on: nothing from it or
      after it is ever yielded. */
  lemma {:induction false} ScanStreamEndsWhenUnavailable(a: seq<Item>, x: Item, b: seq<Item>,
                                                        fromDictionary: AdvertisementDictionary -> AdvertisementData)
    requires x.state != PoweredOn
    ensures ScanStream(a + [x] + b, fromDictionary) == ScanStream(a, fromDictionary)
  {
    if a != [] {
      assert (a + [x] + b)[0] == a[0] && (a + [x] + b)[1..] == a[1..] + [x] + b;
      ScanStreamEndsWhenUnavailable(a[1..], x, b, fromDictionary);
    } else {
      assert a + [x] + b == [x] + b;
    }
  }

  /** While the manager stays powered on, every discovery is yielded, in order. */
  lemma {:induction false} ScanStreamAppend(a: seq<Item>, b: seq<Item>,
                                            fromDictionary: AdvertisementDictionary -> AdvertisementData)
    requires forall j :: 0 <= j < |a| ==> a[j].state == PoweredOn
    ensures ScanStream(a + b, fromDictionary) == ScanStream(a, fromDictionary) + ScanStream(b, fromDictionary)
  {
    if a != [] {
      assert (a + b)[0] == a[0] && (a + b)[1..] == a[1..] + b;
      ScanStreamAppend(a[1..], b, fromDictionary);
    } else {
      assert a + b == b;
    }
  }

  // ---------------------------------------------------------------- connect / disconnect

  /** The error for a failed connect or a disconnect: the native error if one was supplied. */
  function FailureOf(error: Option<int>): (e: Error)
    ensures e.FromNative? <==> error.Some?
    ensures error.Some? ==> e.code == error.value
    ensures error.None? ==> e == FromKind(ConnectionFailed)
  {
    match error
    case Some(code) => FromNative(code)
    case None => FromKind(ConnectionFailed)
  }

  const UnavailableError: Error := FromKind(AdapterUnavailable)

  /** The item is passed over by the connect loop for `target`. */
  predicate ConnectIgnores(item: Item, target: Peripheral) {
    && item.state == PoweredOn
    && match item.received
       case Event(Connect(p)) => p != target
       case Event(ConnectFailed(p, _)) => p != target
       case _ => true
  }

  /** The item reports that connecting to `target` failed with `e`. */
  predicate ConnectFailedWith(item: Item, target: Peripheral, e: Error) {
    && item.received.Event? && item.received.event.ConnectFailed?
    && item.received.event.peripheral == target && e == FailureOf(item.received.event.error)
  }

  /** The `while let` loop of `connect_device` over the remaining items: an error is
      either the manager's unavailability or a reported failure for the target. */
  function ConnectLoop(target: Peripheral, items: seq<Item>): (r: Result<(), Error>)
    ensures r.Err? ==>
      r.error == UnavailableError || exists i :: 0 <= i < |items| && ConnectFailedWith(items[i], target, r.error)
  {
    if items == [] then Ok(())
    else if items[0].state != PoweredOn then Err(UnavailableError)
    else
      match items[0].received
      case Event(Connect(p)) =>
        if p == target then Ok(()) else ConnectLoop(target, items[1..])
      case Event(ConnectFailed(p, error)) =>
        if p == target then Err(FailureOf(error)) else ConnectLoop(target, items[1..])
      case _ => ConnectLoop(target, items[1..])
  }

  /** The connect loop is decided by the first item `k` it does not pass over. The
      availability check comes before matching, so an item handled while not powered on
      fails with `AdapterUnavailable` whatever its event; otherwise a `Connect` for the
      target succeeds and a `ConnectFailed` for it fails with its error. A stream that
      ends first succeeds. */
  lemma {:induction false} ConnectLoopAt(target: Peripheral, items: seq<Item>, k: nat)
    requires k <= |items| && forall j :: 0 <= j < k ==> ConnectIgnores(items[j], target)
    requires k < |items| ==> !ConnectIgnores(items[k], target)
    ensures k == |items| ==> ConnectLoop(target, items) == Ok(())
    ensures k < |items| && items[k].state != PoweredOn ==> ConnectLoop(target, items) == Err(UnavailableError)
    ensures k < |items| && items[k].state == PoweredOn ==>
      match items[k].received
      case Event(Connect(p)) => p == target && ConnectLoop(target, items) == Ok(())
      case Event(ConnectFailed(p, error)) => p == target && ConnectLoop(target, items) == Err(FailureOf(error))
      case _ => false
    decreases k
  {
    if k > 0 {
      ConnectLoopAt(target, items[1..], k - 1);
    }
  }

  /** Inserting an item the loop passes over (another peripheral's event, a lag, any other
      event, all while powered on) does not change the outcome. */
  lemma {:induction false} ConnectIgnoresOthers(target: Peripheral, a: seq<Item>, x: Item, b: seq<Item>)
    requires ConnectIgnores(x, target)
    ensures ConnectLoop(target, a + [x] + b) == ConnectLoop(target, a + b)
  {
    if a != [] {
      assert (a + [x] + b)[0] == a[0] && (a + [x] + b)[1..] == a[1..] + [x] + b;
      assert (a + b)[0] == a[0] && (a + b)[1..] == a[1..] + b;
      ConnectIgnoresOthers(target, a[1..], x, b);
    } else {
      assert a + [x] + b == [x] + b && a + b == b;
      assert ([x] + b)[1..] == b;
    }
  }

  /** The item is passed over by the disconnect loop for `target`. */
  predicate DisconnectIgnores(item: Item, target: Peripheral) {
    && item.state == PoweredOn
    && match item.received
       case Event(Disconnect(p, _)) => p != target
       case _ => true
  }

  /** The item reports that `target` disconnected with `e`. */
  predicate DisconnectedWith(item: Item, target: Peripheral, e: Error) {
    && item.received.Event? && item.received.event.Disconnect?
    && item.received.event.peripheral == target && e == FailureOf(item.received.event.error)
  }

  /** The `while let` loop of `disconnect_device` over the remaining items: an error is
      either the manager's unavailability or the target's disconnection. */
  function DisconnectLoop(target: Peripheral, items: seq<Item>): (r: Result<(), Error>)
    ensures r.Err? ==>
      r.error == UnavailableError || exists i :: 0 <= i < |items| && DisconnectedWith(items[i], target, r.error)
  {
    if items == [] then Ok(())
    else if items[0].state != PoweredOn then Err(UnavailableError)
    else
      match items[0].received
      case Event(Disconnect(p, error)) =>
        if p == target then Err(FailureOf(error)) else DisconnectLoop(target, items[1..])
      case _ => DisconnectLoop(target, items[1..])
  }

  /** The disconnect loop ends in Ok only when the stream ends: a matching `Disconnect`
      always ends in an error (the native one, or `ConnectionFailed`), and so does an
      item handled while not powered on. */
  lemma {:induction false} DisconnectLoopAt(target: Peripheral, items: seq<Item>, k: nat)
    requires k <= |items| && forall j :: 0 <= j < k ==> DisconnectIgnores(items[j], target)
    requires k < |items| ==> !DisconnectIgnores(items[k], target)
    ensures k == |items| ==> DisconnectLoop(target, items) == Ok(())
    ensures k < |items| && items[k].state != PoweredOn ==> DisconnectLoop(target, items) == Err(UnavailableError)
    ensures k < |items| && items[k].state == PoweredOn ==>
      items[k].received.Event? && items[k].received.event.Disconnect? &&
      items[k].received.event.peripheral == target &&
      DisconnectLoop(target, items) == Err(FailureOf(items[k].received.event.error))
    decreases k
  {
    if k > 0 {
      DisconnectLoopAt(target, items[1..], k - 1);
    }
  }

  /** `disconnect_device`'s loop returns Ok iff it passes over every item. */
  lemma {:induction false} DisconnectOkIff(target: Peripheral, items: seq<Item>)
    ensures DisconnectLoop(target, items).Ok? <==> forall j :: 0 <= j < |items| ==> DisconnectIgnores(items[j], target)
  {
    if items != [] {
      DisconnectOkIff(target, items[1..]);
      assert forall j :: 1 <= j < |items| ==> items[1..][j - 1] == items[j];
    }
  }

  // ---------------------------------------------------------------- open_device

  /** `open_device`: the first peripheral CoreBluetooth retrieves for the identifier. */
  function OpenDevice(retrieved: seq<Peripheral>): (r: Result<Device, Error>)
    ensures r.Ok? <==> retrieved != []
    ensures r.Ok? ==> r.value == Device(retrieved[0])
    ensures r.Err? ==> r.error.New? && r.error.kind == NotFound
  {
    if retrieved == [] then Err(New(NotFound, None, "opening device")) else Ok(Device(retrieved[0]))
  }

  // ---------------------------------------------------------------- the adapter

  /** The adapter. Clones share the `scanning` flag, so one object stands for all clones. */
  class Adapter {
    /** The single-flight flag. */
    var scanning: bool
    /** The central's scan: None when stopped; otherwise the service filter it was
        started with, None meaning every service. */
    var nativeScan: Option<Option<seq<Uuid>>>
    /** The number of live scan guards. */
    ghost var guards: nat

    /** At most one scan is active, and the flag is set exactly while it is. */
    ghost predicate Valid()
      reads this
    {
      && (scanning <==> nativeScan.Some?)
      && guards == (if scanning then 1 else 0)
    }

    constructor ()
      ensures Valid() && !scanning && nativeScan == None
    {
      scanning, nativeScan, guards := false, None, 0;
    }

    /** `scan`: the availability check, the check-and-set of the flag, then the native scan
        (filtered only when services were requested). On success the caller holds the one
        guard, and the stream's elements are `ScanStream` of the subscription. */
    method Scan(state: ManagerState, services: seq<Uuid>) returns (r: Result<(), Error>)
      requires Valid()
      modifies this
      ensures Valid()
      ensures state != PoweredOn ==> r == Err(UnavailableError) && unchanged(this)
      ensures state == PoweredOn && old(scanning) ==> r == Err(FromKind(AlreadyScanning)) && unchanged(this)
      ensures state == PoweredOn && !old(scanning) ==>
        r == Ok(()) && scanning && guards == 1 && nativeScan == Some(if services == [] then None else Some(services))
    {
      if state != PoweredOn {
        return Err(UnavailableError);
      }
      var was := scanning;
      scanning := true;
      if was {
        return Err(FromKind(AlreadyScanning));
      }
      guards := guards + 1;
      nativeScan := Some(if services == [] then None else Some(services));
      r := Ok(());
    }

    /** The scan guard runs: the central stops scanning and the flag is cleared. */
    method DropScanGuard()
      requires Valid() && guards > 0
      modifies this
      ensures Valid() && !scanning && nativeScan == None && guards == 0
    {
      nativeScan := None;
      scanning := false;
      guards := guards - 1;
    }

    /** `connect_device`: fails at once unless powered on (no command is issued), then
        waits for the target's `Connect` or `ConnectFailed`. */
    method ConnectDevice(state: ManagerState, device: Device, items: seq<Item>) returns (r: Result<(), Error>, issued: bool)
      ensures issued <==> state == PoweredOn
      ensures r == if state != PoweredOn then Err(UnavailableError) else ConnectLoop(device.peripheral, items)
    {
      if state != PoweredOn {
        return Err(UnavailableError), false;
      }
      issued := true;
      var i := 0;
      while i < |items|
        invariant 0 <= i <= |items|
        invariant ConnectLoop(device.peripheral, items) == ConnectLoop(device.peripheral, items[i..])
      {
        var item := items[i];
        assert items[i..][1..] == items[i + 1..];
        if item.state != PoweredOn {
          return Err(UnavailableError), issued;
        }
        match item.received {
          case Event(Connect(p)) =>
            if p == device.peripheral {
              return Ok(()), issued;
            }
          case Event(ConnectFailed(p, error)) =>
            if p == device.peripheral {
              return Err(FailureOf(error)), issued;
            }
          case _ =>
        }
        i := i + 1;
      }
      r := Ok(());
    }

    /** `disconnect_device`: fails at once unless powered on (no command is issued), then
        waits for the target's `Disconnect`, which always ends in an error. */
    method DisconnectDevice(state: ManagerState, device: Device, items: seq<Item>) returns (r: Result<(), Error>, issued: bool)
      ensures issued <==> state == PoweredOn
      ensures r == if state != PoweredOn then Err(UnavailableError) else DisconnectLoop(device.peripheral, items)
    {
      if state != PoweredOn {
        return Err(UnavailableError), false;
      }
      issued := true;
      var i := 0;
      while i < |items|
        invariant 0 <= i <= |items|
        invariant DisconnectLoop(device.peripheral, items) == DisconnectLoop(device.peripheral, items[i..])
      {
        var item := items[i];
        assert items[i..][1..] == items[i + 1..];
        if item.state != PoweredOn {
          return Err(UnavailableError), issued;
        }
        match item.received {
          case Event(Disconnect(p, error)) =>
            if p == device.peripheral {
              return Err(FailureOf(error)), issued;
            }
          case _ =>
        }
        i := i + 1;
      }
      r := Ok(());
    }
  }

  /** Two scans in a row: the second fails `AlreadyScanning`; once the first guard has run
      a new scan succeeds. */
  method SingleFlight(services: seq<Uuid>)
    returns (first: Result<(), Error>, second: Result<(), Error>, third: Result<(), Error>)
    ensures first == Ok(()) && second == Err(FromKind(AlreadyScanning)) && third == Ok(())
  {
    var adapter := new Adapter();
    first := adapter.Scan(PoweredOn, services);
    second := adapter.Scan(PoweredOn, services);
    adapter.DropScanGuard();
    third := adapter.Scan(PoweredOn, services);
  }
}
