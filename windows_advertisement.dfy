/**
 * The Windows advertiser: an `AdvertisementImpl` owns at most one WinRT
 * `BluetoothLEAdvertisementPublisher`, and `advertise`, `stop_advertising` and
 * `start_advertising` move it through its start/stop transitions. Each WinRT call
 * that can fail is given its outcome as a parameter.
 */
module WindowsAdvertisement {
  import opened Wrappers
  import opened Bluetooth

  /** The outcome of one WinRT call; a failure carries its HRESULT. */
  datatype NativeResult = Succeeds | Fails(code: int)

  /** The `std::io::Error` a WinRT failure is converted into by `?`. */
  datatype IoError = IoError(code: int)

  /** A `BluetoothLEManufacturerData` entry; `companyId` is None when it was never set. */
  datatype ManufacturerSection = ManufacturerSection(companyId: Option<u16>, data: seq<byte>)

  /** `BluetoothLEAdvertisementPublisherStatus`, as far as these transitions reach. */
  datatype PublisherStatus = Created | Started | Stopped

  /** A WinRT publisher: the advertisement's manufacturer entries and its status. */
  class Publisher {
    const manufacturerData: seq<ManufacturerSection>
    var status: PublisherStatus

    constructor (sections: seq<ManufacturerSection>)
      ensures manufacturerData == sections && status == Created
    {
      manufacturerData := sections;
      status := Created;
    }

    /** `Start()`: on success the publisher is started; on failure nothing changes. */
    method Start(outcome: NativeResult) returns (r: Result<(), IoError>)
      modifies this
      ensures outcome.Succeeds? ==> r == Ok(()) && status == Started
      ensures outcome.Fails? ==> r == Err(IoError(outcome.code)) && status == old(status)
    {
      if outcome.Fails? {
        return Err(IoError(outcome.code));
      }
      status := Started;
      r := Ok(());
    }

    /** `Stop()`: on success the publisher is stopped; on failure nothing changes. */
    method Stop(outcome: NativeResult) returns (r: Result<(), IoError>)
      modifies this
      ensures outcome.Succeeds? ==> r == Ok(()) && status == Stopped
      ensures outcome.Fails? ==> r == Err(IoError(outcome.code)) && status == old(status)
    {
      if outcome.Fails? {
        return Err(IoError(outcome.code));
      }
      status := Stopped;
      r := Ok(());
    }
  }

  /** The steps of `start_advertising` that can fail, in the order they run. */
  datatype StartStep =
    | CreateAdvertisement | CreateManufacturerData | CreateWriter | WriteBytes | DetachBuffer
    | SetData | AccessManufacturerData | AppendManufacturerData | CreatePublisher | StartPublisher

  /** The context `start_advertising` puts in front of a failing step's error. */
  function StepMessage(step: StartStep): (m: string)
    ensures "Failed to " <= m
  {
    match step
    case CreateAdvertisement => "Failed to create advertisement"
    case CreateManufacturerData => "Failed to create manufacturer data"
    case CreateWriter => "Failed to create DataWriter"
    case WriteBytes => "Failed to write bytes"
    case DetachBuffer => "Failed to detach buffer"
    case SetData => "Failed to set data"
    case AccessManufacturerData => "Failed to access ManufacturerData"
    case AppendManufacturerData => "Failed to append manufacturer data"
    case CreatePublisher => "Failed to create publisher"
    case StartPublisher => "Failed to start advertising"
  }

  /** The first failing step of a `start_advertising` call and the native error's debug text. */
  datatype StartFailure = StartFailure(step: StartStep, detail: string)

  const NoDataToSend: string := "no data to send."

  class AdvertisementImpl {
    var publisher: Option<Publisher>

    /** The publisher this advertiser holds, as a frame. */
    function Held(): set<Publisher>
      reads this
    {
      if publisher.Some? then {publisher.value} else {}
    }

    /** `AdvertisementImpl::new`: no publisher. */
    constructor ()
      ensures publisher == None
    {
      publisher := None;
    }

    /** `advertise`: stop and drop any publisher held; build a fresh one whose single
        manufacturer entry carries `data` unchanged and no company id; start it; and when
        a duration is given, stop and drop it again once that has elapsed. Each step
        propagates its native failure, leaving the state it had reached. */
    method Advertise(data: seq<byte>, duration: Option<nat>, stopExisting: NativeResult,
                     build: NativeResult, start: NativeResult, stopAfter: NativeResult)
      returns (r: Result<(), IoError>)
      modifies this, Held()
      ensures old(publisher).Some? && stopExisting.Fails? ==>
        r == Err(IoError(stopExisting.code)) && publisher == old(publisher) &&
        publisher.value.status == old(publisher.value.status)
      ensures old(publisher).Some? && stopExisting.Succeeds? ==> old(publisher).value.status == Stopped
      ensures (old(publisher).None? || stopExisting.Succeeds?) && build.Fails? ==>
        r == Err(IoError(build.code)) && publisher == None
      ensures (old(publisher).None? || stopExisting.Succeeds?) && build.Succeeds? && publisher.Some? ==>
        fresh(publisher.value) && publisher.value.manufacturerData == [ManufacturerSection(None, data)]
      ensures (old(publisher).None? || stopExisting.Succeeds?) && build.Succeeds? && start.Fails? ==>
        r == Err(IoError(start.code)) && publisher.Some? && publisher.value.status == Created
      ensures (old(publisher).None? || stopExisting.Succeeds?) && build.Succeeds? && start.Succeeds? ==>
        match duration
        case None => r == Ok(()) && publisher.Some? && publisher.value.status == Started
        case Some(_) =>
          if stopAfter.Fails? then
            r == Err(IoError(stopAfter.code)) && publisher.Some? && publisher.value.status == Started
          else
            r == Ok(()) && publisher == None
    {
      if publisher.Some? {
        var stopped := publisher.value.Stop(stopExisting);
        if stopped.Err? {
          return Err(stopped.error);
        }
        publisher := None;
      }
      if publisher.None? {
        if build.Fails? {
          return Err(IoError(build.code));
        }
        var created := new Publisher([ManufacturerSection(None, data)]);
        publisher := Some(created);
      }
      if publisher.Some? {
        var started := publisher.value.Start(start);
        if started.Err? {
          return Err(started.error);
        }
      }
      if duration.Some? {
        if publisher.Some? {
          var stopped := publisher.value.Stop(stopAfter);
          if stopped.Err? {
            return Err(stopped.error);
          }
          publisher := None;
        }
      }
      r := Ok(());
    }

    /** `stop_advertising`: without a publisher, Ok and nothing changes; otherwise stop it,
        and on success drop it. A failing `Stop` is propagated and the publisher kept. */
    method StopAdvertising(stop: NativeResult) returns (r: Result<(), IoError>)
      modifies this, Held()
      ensures old(publisher).None? ==> r == Ok(()) && publisher == None
      ensures old(publisher).Some? && stop.Succeeds? ==>
        r == Ok(()) && publisher == None && old(publisher).value.status == Stopped
      ensures old(publisher).Some? && stop.Fails? ==>
        r == Err(IoError(stop.code)) && publisher == old(publisher) &&
        publisher.value.status == old(publisher.value.status)
    {
      if publisher.Some? {
        var stopped := publisher.value.Stop(stop);
        if stopped.Err? {
          return Err(stopped.error);
        }
        publisher := None;
      }
      r := Ok(());
    }

    /** `start_advertising`: leaves this advertiser alone and, when the data carries
        manufacturer data and no step fails, returns a new advertiser (the guard's) holding
        a started publisher whose one manufacturer entry has that company id and payload.
        Creating the advertisement comes first; without manufacturer data the call then
        fails with "no data to send."; a failing step fails with its context message. */
    method StartAdvertising(data: AdvertisementData, failure: Option<StartFailure>)
      returns (r: Result<AdvertisementImpl, string>)
      ensures failure.Some? && failure.value.step == CreateAdvertisement ==>
        r == Err(StepMessage(CreateAdvertisement) + ": " + failure.value.detail)
      ensures (failure.None? || failure.value.step != CreateAdvertisement) && data.manufacturerData.None? ==>
        r == Err(NoDataToSend)
      ensures data.manufacturerData.Some? && failure.Some? ==>
        r == Err(StepMessage(failure.value.step) + ": " + failure.value.detail)
      ensures r.Ok? <==> data.manufacturerData.Some? && failure.None?
      ensures r.Ok? ==>
        && fresh(r.value) && r.value.publisher.Some? && fresh(r.value.publisher.value)
        && r.value.publisher.value.status == Started
        && r.value.publisher.value.manufacturerData ==
           [ManufacturerSection(Some(data.manufacturerData.value.companyId), data.manufacturerData.value.data)]
    {
      if failure.Some? && failure.value.step == CreateAdvertisement {
        return Err(StepMessage(CreateAdvertisement) + ": " + failure.value.detail);
      }
      if data.manufacturerData.Some? {
        var m := data.manufacturerData.value;
        if failure.Some? {
          return Err(StepMessage(failure.value.step) + ": " + failure.value.detail);
        }
        var p := new Publisher([ManufacturerSection(Some(m.companyId), m.data)]);
        var started := p.Start(Succeeds);
        var guard := new AdvertisementImpl();
        guard.publisher := Some(p);
        return Ok(guard);
      }
      r := Err(NoDataToSend);
    }
  }

  /** Advertising twice: the second call stops the first call's publisher and installs a
      different one carrying the new data; without a duration it stays started. */
  method Readvertise(first: seq<byte>, second: seq<byte>)
    returns (r1: Result<(), IoError>, r2: Result<(), IoError>,
             firstStatus: PublisherStatus, secondStatus: PublisherStatus, carried: seq<ManufacturerSection>, distinct: bool)
    ensures r1 == Ok(()) && r2 == Ok(())
    ensures firstStatus == Stopped && secondStatus == Started && distinct
    ensures carried == [ManufacturerSection(None, second)]
  {
    var adv := new AdvertisementImpl();
    r1 := adv.Advertise(first, None, Succeeds, Succeeds, Succeeds, Succeeds);
    var p1 := adv.publisher.value;
    r2 := adv.Advertise(second, None, Succeeds, Succeeds, Succeeds, Succeeds);
    var p2 := adv.publisher.value;
    firstStatus, secondStatus, carried, distinct := p1.status, p2.status, p2.manufacturerData, p1 != p2;
  }
}
