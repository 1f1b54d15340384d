/**
 * `WebcamUtil.getAvailableVideoInputs`: the camera devices among the media
 * devices the platform enumerates, or a rejection.
 */
module DeviceUtil {
  import opened JsValues

  /** A `MediaDeviceInfo` as enumerated by the platform. */
  datatype DeviceInfo = DeviceInfo(deviceId: string, kind: string, displayLabel: string, groupId: string)

  const VIDEO_INPUT: string := "videoinput"
  const ENUMERATE_NOT_SUPPORTED: string := "enumerateDevices() not supported."

  /** `devices.filter(device => device.kind === 'videoinput')`. */
  function FilterVideoInputs(devices: seq<DeviceInfo>): (r: seq<DeviceInfo>)
    ensures |r| <= |devices|
    ensures forall i :: 0 <= i < |r| ==> r[i].kind == VIDEO_INPUT && r[i] in devices
    ensures forall i :: 0 <= i < |devices| && devices[i].kind == VIDEO_INPUT ==> devices[i] in r
  {
    if devices == [] then []
    else (if devices[0].kind == VIDEO_INPUT then [devices[0]] else []) + FilterVideoInputs(devices[1..])
  }

  /** Filtering a concatenation filters each part in place, so the devices keep their enumeration order. */
  lemma {:induction false} FilterVideoInputsAppend(a: seq<DeviceInfo>, b: seq<DeviceInfo>)
    ensures FilterVideoInputs(a + b) == FilterVideoInputs(a) + FilterVideoInputs(b)
  {
    if a == [] {
      assert a + b == b;
    } else {
      assert (a + b)[1..] == a[1..] + b;
      FilterVideoInputsAppend(a[1..], b);
    }
  }

  /** A list that already holds only cameras comes back unchanged. */
  lemma {:induction false} FilterVideoInputsKeepsCameras(devices: seq<DeviceInfo>)
    requires forall i :: 0 <= i < |devices| ==> devices[i].kind == VIDEO_INPUT
    ensures FilterVideoInputs(devices) == devices
  {
    if devices != [] {
      FilterVideoInputsKeepsCameras(devices[1..]);
    }
  }

  /** Filtering twice is filtering once. */
  lemma FilterVideoInputsIdempotent(devices: seq<DeviceInfo>)
    ensures FilterVideoInputs(FilterVideoInputs(devices)) == FilterVideoInputs(devices)
  {
    FilterVideoInputsKeepsCameras(FilterVideoInputs(devices));
  }

  /**
   * `getAvailableVideoInputs`, given whether the platform offers
   * `enumerateDevices` and how that call settled: rejects with
   * `'enumerateDevices() not supported.'` without the capability; otherwise
   * fulfils with the video inputs, or rejects with `err.message` when truthy
   * and with `err` itself otherwise.
   */
  function GetAvailableVideoInputs(supported: bool, enumerated: Settled<seq<DeviceInfo>>): (r: Settled<seq<DeviceInfo>>)
    requires supported && enumerated.Rejected? ==> !Nullish(enumerated.reason)
    ensures !supported ==> r == Rejected(Str(ENUMERATE_NOT_SUPPORTED))
    ensures supported && enumerated.Fulfilled? ==> r == Fulfilled(FilterVideoInputs(enumerated.value))
    ensures supported && enumerated.Rejected? && Truthy(Field(enumerated.reason, "message")) ==>
      r == Rejected(Field(enumerated.reason, "message"))
    ensures supported && enumerated.Rejected? && !Truthy(Field(enumerated.reason, "message")) ==>
      r == Rejected(enumerated.reason)
  {
    if !supported then Rejected(Str(ENUMERATE_NOT_SUPPORTED))
    else match enumerated
      case Fulfilled(devices) => Fulfilled(FilterVideoInputs(devices))
      case Rejected(err) => Rejected(if Truthy(Field(err, "message")) then Field(err, "message") else err)
  }
}
