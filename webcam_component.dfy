/**
 * `WebcamComponent`: the camera widget's device-selection state machine.
 *
 * The component's fields are the fields of the class below. Each promise
 * continuation of the source (`getUserMedia(...).then/.catch`,
 * `detectAvailableDevices().then/.catch`) is a separate method that the
 * environment calls once the platform has answered; ghost counters record
 * which requests are still outstanding, so a continuation only runs after its
 * request was made. Everything the component asks of the platform, and every
 * event it emits, is appended to `trace`, which is how orderings such as
 * "stop the old tracks before requesting a new stream" are stated.
 */
module Webcam {
  import opened Wrappers
  import opened JsValues
  import opened Constraints
  import opened Tracks
  import Mirror
  import opened DeviceUtil
  import opened Image

  const DEFAULT_WIDTH: int := 640
  const DEFAULT_HEIGHT: int := 480
  const DEFAULT_IMAGE_TYPE: string := "image/jpeg"
  const DEFAULT_IMAGE_QUALITY: real := 0.92
  const NO_USER_MEDIA: string := "Cannot read UserMedia from MediaDevices."

  /** Which of `navigator.mediaDevices.enumerateDevices` and `.getUserMedia` the browser offers. */
  datatype Platform = Platform(hasEnumerateDevices: bool, hasGetUserMedia: bool)

  /** A subscription to one of the host's observables (`trigger`, `switchCamera`). */
  class Subscription {
    constructor ()
    {
    }
  }

  /** A platform call made, or an event emitted, by the component. */
  datatype Effect =
    | StopTrack(track: MediaTrack)                        // track.stop()
    | GetUserMedia(video: map<string, JsValue>)           // getUserMedia({video}) with these constraints
    | EnumerateDevices                                    // enumerateDevices()
    | AttachStream(stream: MediaStream)                   // video.srcObject = stream; video.play()
    | Unsubscribe(subscription: Subscription)             // subscription.unsubscribe()
    | InitError(message: JsValue, mediaStreamError: Option<JsValue>)
    | CameraSwitched(deviceId: JsValue)
    | ImageCapture(image: WebcamImage)

  /** The widget's own state. */
  datatype WidgetState = WidgetState(
    availableVideoInputs: seq<DeviceInfo>,
    activeVideoInputIndex: int,
    videoInitialized: bool,
    firstTimeLoad: bool,
    mediaStream: MediaStream?,
    activeVideoSettings: Option<TrackSettings>,
    triggerSubscription: Subscription?,
    switchCameraSubscription: Subscription?)

  /** The host's configuration inputs. */
  datatype HostInputs = HostInputs(
    width: int,
    height: int,
    videoOptions: MediaTrackConstraints?,
    allowCameraSwitch: bool,
    mirrorImage: Mirror.MirrorSetting,
    captureImageData: bool,
    imageType: string,
    imageQuality: real)

  /** JavaScript's `a % n` for a positive divisor: the remainder takes the sign of `a`. */
  function JsRem(a: int, n: int): (r: int)
    requires n > 0
    ensures a >= 0 ==> 0 <= r < n && r == a % n
    ensures a < 0 ==> -n < r <= 0 && r == -((-a) % n)
  {
    if a >= 0 then a % n else -((-a) % n)
  }

  /**
   * The index `rotateVideoInput` moves to among `n` devices: one step
   * forward, or `n - 1` steps (one back). From any index at or above -1 it
   * names a device; from a known device it is the cyclic neighbour.
   */
  function NextInputIndex(active: int, forward: bool, n: int): (r: int)
    requires n > 0
    ensures active >= -1 ==> 0 <= r < n
    ensures forward && 0 <= active < n - 1 ==> r == active + 1
    ensures forward && active == n - 1 ==> r == 0
    ensures !forward && 0 < active < n ==> r == active - 1
    ensures !forward && active == 0 ==> r == n - 1
  {
    if 0 <= active < n then
      ModBelowTwice(active + (if forward then 1 else n - 1), n);
      JsRem(active + (if forward then 1 else n - 1), n)
    else
      JsRem(active + (if forward then 1 else n - 1), n)
  }

  /** From the unknown index -1, forward selects the first device and backward the second-to-last. */
  lemma RotateFromUnknown(n: int)
    requires n >= 2
    ensures NextInputIndex(-1, true, n) == 0
    ensures NextInputIndex(-1, false, n) == n - 2
  {
  }

  /** Below `2 * n`, the remainder by `n` subtracts `n` at most once. */
  lemma ModBelowTwice(x: int, n: int)
    requires n > 0 && 0 <= x < 2 * n
    ensures x % n == if x < n then x else x - n
  {
    if x >= n {
      assert (x - n) % n == x % n;
    }
  }

  /** On a known device, a backward step undoes a forward step and the other way round. */
  lemma RotationSteps(i: int, n: int)
    requires 0 <= i < n
    ensures NextInputIndex(NextInputIndex(i, true, n), false, n) == i
    ensures NextInputIndex(NextInputIndex(i, false, n), true, n) == i
  {
  }

  /** `devices.findIndex(d => d.deviceId === id)`. */
  function FindDeviceIndex(devices: seq<DeviceInfo>, id: JsValue): (r: int)
    ensures -1 <= r < |devices|
    ensures r >= 0 ==> Str(devices[r].deviceId) == id
    ensures forall j :: 0 <= j < |devices| && (r == -1 || j < r) ==> Str(devices[j].deviceId) != id
  {
    if devices == [] then -1
    else if Str(devices[0].deviceId) == id then 0
    else
      var k := FindDeviceIndex(devices[1..], id);
      if k < 0 then -1 else k + 1
  }

  /**
   * The index stored after a successful acquisition: the first device whose
   * id equals the track's device id, or -1 when the track has no truthy id or
   * no device matches.
   */
  function ActiveIndexFor(devices: seq<DeviceInfo>, id: JsValue): (r: int)
    ensures -1 <= r < |devices|
    ensures !Truthy(id) ==> r == -1
    ensures r >= 0 ==> Str(devices[r].deviceId) == id && forall j :: 0 <= j < r ==> Str(devices[j].deviceId) != id
    ensures Truthy(id) && r == -1 ==> forall j :: 0 <= j < |devices| ==> Str(devices[j].deviceId) != id
  {
    if Truthy(id) then FindDeviceIndex(devices, id) else -1
  }

  /**
   * When the browser reports the requested constraints but no device id in
   * the settings, the device that was requested is found again, provided the
   * device ids are distinct.
   */
  lemma RequestedDeviceIsMatched(devices: seq<DeviceInfo>, i: int, track: TrackInfo, base: map<string, JsValue>)
    requires 0 <= i < |devices| && devices[i].deviceId != ""
    requires forall j :: 0 <= j < |devices| && j != i ==> devices[j].deviceId != devices[i].deviceId
    requires SettingsDeviceId(track).None?
    requires track.getConstraints == Returns(Some(MergeDeviceId(Some(devices[i].deviceId), base)))
    ensures ActiveIndexFor(devices, DeviceIdFromTrack(track)) == i
  {
    EchoedRequestYieldsDeviceId(track, devices[i].deviceId, base);
  }

  /**
   * The platform call `initWebcam` makes: an `initError` without
   * `getUserMedia`; the shared defaults on the first load, whatever device
   * and host constraints were asked for; the host constraints with the device
   * id merged in afterwards.
   */
  function InitEffect(hasGetUserMedia: bool, firstTimeLoad: bool, deviceId: Option<string>,
                      targetFields: map<string, JsValue>, defaultFields: map<string, JsValue>): (r: Effect)
    ensures !hasGetUserMedia ==> r == InitError(Str(NO_USER_MEDIA), None)
    ensures hasGetUserMedia ==> r.GetUserMedia?
    ensures hasGetUserMedia && !firstTimeLoad ==> r.video == defaultFields
    ensures hasGetUserMedia && firstTimeLoad && DeviceIdTruthy(deviceId) ==>
      && r.video.Keys == targetFields.Keys + {"deviceId"}
      && r.video["deviceId"] == ExactDeviceId(deviceId.value)
    ensures hasGetUserMedia && firstTimeLoad && !DeviceIdTruthy(deviceId) ==> r.video == targetFields
    ensures hasGetUserMedia && firstTimeLoad ==>
      forall k :: k in targetFields && k != "deviceId" ==> k in r.video && r.video[k] == targetFields[k]
  {
    if !hasGetUserMedia then InitError(Str(NO_USER_MEDIA), None)
    else if firstTimeLoad then GetUserMedia(MergeDeviceId(deviceId, targetFields))
    else GetUserMedia(defaultFields)
  }

  /** The stream's first video track exists and has a `getSettings` method, so the success continuation does not throw. */
  predicate HasReadableVideoTrack(stream: MediaStream) {
    ActiveVideoTrack(stream).Some? && ActiveVideoTrack(stream).value.getSettings.Returns?
  }

  /** The `stop()` calls for the tracks of a stream, in `getTracks()` order. */
  function StopCallsOf(tracks: seq<MediaTrack>): (r: seq<Effect>)
    ensures |r| == |tracks|
    ensures forall i :: 0 <= i < |tracks| ==> r[i] == StopTrack(tracks[i])
  {
    seq(|tracks|, i requires 0 <= i < |tracks| => StopTrack(tracks[i]))
  }

  /** The `stop()` calls `stopMediaTracks` makes: none without a stream. */
  function StopCalls(stream: MediaStream?): seq<Effect> {
    if stream == null then [] else StopCallsOf(stream.tracks)
  }

  /** The tracks of a stream, as a set of objects. */
  function TracksOf(stream: MediaStream?): set<MediaTrack> {
    if stream == null then {} else set i | 0 <= i < |stream.tracks| :: stream.tracks[i]
  }

  /** Every track of the stream has ended. */
  predicate AllEnded(stream: MediaStream?)
    reads TracksOf(stream)
  {
    stream != null ==> forall i :: 0 <= i < |stream.tracks| ==> stream.tracks[i].ended
  }

  /** `unsubscribeFromSubscriptions`: one `unsubscribe()` for each subscription that exists. */
  function UnsubscribeCalls(trigger: Subscription?, switchCamera: Subscription?): (r: seq<Effect>)
    ensures |r| == (if trigger != null then 1 else 0) + (if switchCamera != null then 1 else 0)
    ensures trigger != null ==> r[0] == Unsubscribe(trigger)
    ensures switchCamera != null ==> r[|r| - 1] == Unsubscribe(switchCamera)
    ensures forall i :: 0 <= i < |r| ==> r[i].Unsubscribe? && (r[i].subscription == trigger || r[i].subscription == switchCamera)
  {
    (if trigger != null then [Unsubscribe(trigger)] else [])
    + (if switchCamera != null then [Unsubscribe(switchCamera)] else [])
  }

  class WebcamComponent {
    // Host inputs.
    var width: int
    var height: int
    var videoOptions: MediaTrackConstraints?
    var allowCameraSwitch: bool
    var mirrorImage: Mirror.MirrorSetting
    var captureImageData: bool
    var imageType: string
    var imageQuality: real

    // Widget state.
    var availableVideoInputs: seq<DeviceInfo>
    var activeVideoInputIndex: int
    var videoInitialized: bool
    var firstTimeLoad: bool
    var mediaStream: MediaStream?
    var activeVideoSettings: Option<TrackSettings>
    var triggerSubscription: Subscription?
    var switchCameraSubscription: Subscription?

    /** The shared `DEFAULT_VIDEO_OPTIONS` object. */
    const defaults: MediaTrackConstraints
    const platform: Platform
    /** The platform calls made and the events emitted so far, oldest first. */
    var trace: seq<Effect>
    /** Outstanding `getUserMedia` requests, background detections and initial detections. */
    ghost var pendingUserMedia: nat
    ghost var pendingDetections: nat
    ghost var pendingInitialDetections: nat

    function State(): WidgetState
      reads this`availableVideoInputs, this`activeVideoInputIndex, this`videoInitialized, this`firstTimeLoad,
            this`mediaStream, this`activeVideoSettings, this`triggerSubscription, this`switchCameraSubscription
    {
      WidgetState(availableVideoInputs, activeVideoInputIndex, videoInitialized, firstTimeLoad,
                  mediaStream, activeVideoSettings, triggerSubscription, switchCameraSubscription)
    }

    function Inputs(): HostInputs
      reads this`width, this`height, this`videoOptions, this`allowCameraSwitch, this`mirrorImage,
            this`captureImageData, this`imageType, this`imageQuality
    {
      HostInputs(width, height, videoOptions, allowCameraSwitch, mirrorImage, captureImageData, imageType, imageQuality)
    }

    /** The object `getMediaConstraintsForDevice` writes into: the host's options, or the shared defaults. */
    function ConstraintsTarget(): MediaTrackConstraints
      reads this`videoOptions
    {
      if videoOptions != null then videoOptions else defaults
    }

    function ActiveTracks(): set<MediaTrack>
      reads this`mediaStream
    {
      TracksOf(mediaStream)
    }

    /** The `enumerateDevices()` call `detectAvailableDevices` makes, when the platform has it. */
    function DetectionCalls(): seq<Effect> {
      if platform.hasEnumerateDevices then [EnumerateDevices] else []
    }

    /**
     * The index is -1 or a real index; the widget is ready only with a stream
     * attached after the first load; a stream is requested only after the
     * first load; the shared defaults keep their facing mode.
     */
    ghost predicate Valid()
      reads this`activeVideoInputIndex, this`videoInitialized, this`mediaStream, this`firstTimeLoad,
            this`pendingUserMedia, defaults`fields
    {
      && activeVideoInputIndex >= -1
      && (videoInitialized ==> mediaStream != null && firstTimeLoad)
      && (pendingUserMedia > 0 ==> firstTimeLoad && platform.hasGetUserMedia)
      && DefaultsIntact(defaults.fields)
    }

    /** The camera-switch button is shown; then a stream is attached and there is a device to rotate to. */
    predicate ShowCameraSwitch()
      reads this`allowCameraSwitch, this`availableVideoInputs, this`videoInitialized
      reads this`activeVideoInputIndex, this`mediaStream, this`firstTimeLoad, this`pendingUserMedia, defaults`fields
      ensures ShowCameraSwitch() ==> |availableVideoInputs| >= 2
      ensures ShowCameraSwitch() && Valid() ==> mediaStream != null && firstTimeLoad
    {
      allowCameraSwitch && |availableVideoInputs| > 1 && videoInitialized
    }

    /**
     * The outcome of `switchToVideoInput(deviceId)` after `prefix` was
     * emitted: not ready, every track of the old stream stopped, then exactly
     * one `initWebcam` effect; `firstTimeLoad` is set by the first request.
     * The methods' frames say which fields may change at all.
     */
    twostate predicate SwitchedAfter(prefix: seq<Effect>, deviceId: Option<string>)
      reads this, ActiveTracks(), ConstraintsTarget(), defaults
    {
      var target := ConstraintsTarget();
      && target == old(ConstraintsTarget()) && mediaStream == old(mediaStream)
      && !videoInitialized
      && firstTimeLoad == (old(firstTimeLoad) || platform.hasGetUserMedia)
      && trace == old(trace) + prefix + StopCalls(mediaStream)
                  + [InitEffect(platform.hasGetUserMedia, old(firstTimeLoad), deviceId, old(target.fields), old(defaults.fields))]
      && target.fields == (if platform.hasGetUserMedia && old(firstTimeLoad)
                           then MergeDeviceId(deviceId, old(target.fields)) else old(target.fields))
      && AllEnded(mediaStream)
      && pendingUserMedia == old(pendingUserMedia) + (if platform.hasGetUserMedia then 1 else 0)
    }

    /**
     * The outcome of `rotateVideoInput(forward)`: with more than one device,
     * a switch to the device at `NextInputIndex`; otherwise nothing happens.
     */
    twostate predicate Rotated(forward: bool)
      reads this, ActiveTracks(), ConstraintsTarget(), defaults
    {
      var n := |availableVideoInputs|;
      if n > 1 then
        var next := NextInputIndex(activeVideoInputIndex, forward, n);
        0 <= next < n && SwitchedAfter([], Some(availableVideoInputs[next].deviceId))
      else
        && mediaStream == old(mediaStream) && videoOptions == old(videoOptions)
        && videoInitialized == old(videoInitialized) && firstTimeLoad == old(firstTimeLoad)
        && trace == old(trace) && pendingUserMedia == old(pendingUserMedia)
        && unchanged(ActiveTracks()) && unchanged(ConstraintsTarget())
    }

    constructor (defaults: MediaTrackConstraints, platform: Platform)
      requires DefaultsIntact(defaults.fields)
      ensures Valid()
      ensures this.defaults == defaults && this.platform == platform
      ensures Inputs() == HostInputs(DEFAULT_WIDTH, DEFAULT_HEIGHT, defaults, true, Mirror.MirrorUnset, false,
                                     DEFAULT_IMAGE_TYPE, DEFAULT_IMAGE_QUALITY)
      ensures State() == WidgetState([], -1, false, false, null, None, null, null)
      ensures trace == []
      ensures pendingUserMedia == pendingDetections == pendingInitialDetections == 0
    {
      this.defaults := defaults;
      this.platform := platform;
      width, height := DEFAULT_WIDTH, DEFAULT_HEIGHT;
      videoOptions := defaults;
      allowCameraSwitch := true;
      mirrorImage := Mirror.MirrorUnset;
      captureImageData := false;
      imageType, imageQuality := DEFAULT_IMAGE_TYPE, DEFAULT_IMAGE_QUALITY;
      availableVideoInputs := [];
      activeVideoInputIndex := -1;
      videoInitialized, firstTimeLoad := false, false;
      mediaStream := null;
      activeVideoSettings := None;
      triggerSubscription, switchCameraSubscription := null, null;
      trace := [];
      pendingUserMedia, pendingDetections, pendingInitialDetections := 0, 0, 0;
    }

    /**
     * The `trigger` setter: unsubscribes the previous trigger subscription,
     * if any, then subscribes to the new observable. A `null` or `undefined`
     * observable (`observablePresent` false) makes `subscribe` throw after the
     * unsubscribe, so the stale subscription stays in the field.
     */
    method SetTrigger(observablePresent: bool) returns (subscription: Subscription?)
      modifies this`triggerSubscription, this`trace
      ensures trace == old(trace) + UnsubscribeCalls(old(triggerSubscription), null)
      ensures observablePresent ==> subscription != null && fresh(subscription) && triggerSubscription == subscription
      ensures !observablePresent ==> subscription == null && triggerSubscription == old(triggerSubscription)
    {
      if triggerSubscription != null {
        trace := trace + [Unsubscribe(triggerSubscription)];
      }
      subscription := null;
      if observablePresent {
        subscription := new Subscription();
        triggerSubscription := subscription;
      }
    }

    /**
     * The `switchCamera` setter: unsubscribes the previous switch
     * subscription, if any, then subscribes to the new observable; a nullish
     * observable throws after the unsubscribe and leaves the stale one.
     */
    method SetSwitchCamera(observablePresent: bool) returns (subscription: Subscription?)
      modifies this`switchCameraSubscription, this`trace
      ensures trace == old(trace) + UnsubscribeCalls(null, old(switchCameraSubscription))
      ensures observablePresent ==> subscription != null && fresh(subscription) && switchCameraSubscription == subscription
      ensures !observablePresent ==> subscription == null && switchCameraSubscription == old(switchCameraSubscription)
    {
      if switchCameraSubscription != null {
        trace := trace + [Unsubscribe(switchCameraSubscription)];
      }
      subscription := null;
      if observablePresent {
        subscription := new Subscription();
        switchCameraSubscription := subscription;
      }
    }

    /** `stopMediaTracks`: stops every track, audio and video, of the current stream; nothing without a stream. */
    method StopMediaTracks()
      modifies this`trace, ActiveTracks()
      ensures trace == old(trace) + StopCalls(mediaStream)
      ensures AllEnded(mediaStream)
    {
      if mediaStream != null {
        var tracks := mediaStream.tracks;
        var i := 0;
        while i < |tracks|
          invariant 0 <= i <= |tracks|
          invariant trace == old(trace) + StopCallsOf(tracks[..i])
          invariant forall j :: 0 <= j < i ==> tracks[j].ended
        {
          tracks[i].Stop();
          assert StopCallsOf(tracks[..i + 1]) == StopCallsOf(tracks[..i]) + [StopTrack(tracks[i])];
          trace := trace + [StopTrack(tracks[i])];
          i := i + 1;
        }
        assert tracks[..i] == tracks;
      }
    }

    /**
     * `initWebcam(deviceId, userVideoTrackConstraints)`: without
     * `getUserMedia`, an `initError`; on the first load the shared defaults
     * are requested and `firstTimeLoad` becomes true; afterwards the host
     * constraints, with the device id merged in place, are requested.
     */
    method InitWebcam(deviceId: Option<string>, userConstraints: MediaTrackConstraints?)
      requires Valid()
      modifies this`firstTimeLoad, this`trace, this`pendingUserMedia
      modifies if userConstraints != null then userConstraints else defaults
      ensures Valid()
      ensures var target := if userConstraints != null then userConstraints else defaults;
        && trace == old(trace) + [InitEffect(platform.hasGetUserMedia, old(firstTimeLoad), deviceId,
                                             old(target.fields), old(defaults.fields))]
        && target.fields == (if platform.hasGetUserMedia && old(firstTimeLoad)
                             then MergeDeviceId(deviceId, old(target.fields)) else old(target.fields))
      ensures firstTimeLoad == (old(firstTimeLoad) || platform.hasGetUserMedia)
      ensures pendingUserMedia == old(pendingUserMedia) + (if platform.hasGetUserMedia then 1 else 0)
    {
      if platform.hasGetUserMedia {
        var video: MediaTrackConstraints;
        if firstTimeLoad {
          MergeKeepsDefaults(deviceId, defaults.fields);
          video := GetMediaConstraintsForDevice(deviceId, userConstraints, defaults);
        } else {
          firstTimeLoad := true;
          video := defaults;
        }
        trace := trace + [GetUserMedia(video.fields)];
        pendingUserMedia := pendingUserMedia + 1;
      } else {
        trace := trace + [InitError(Str(NO_USER_MEDIA), None)];
      }
    }

    /** `switchToVideoInput(deviceId)`: not ready, stop the current tracks, then `initWebcam`. */
    method SwitchToVideoInput(deviceId: Option<string>)
      requires Valid()
      modifies this`videoInitialized, this`firstTimeLoad, this`trace, this`pendingUserMedia
      modifies ActiveTracks(), ConstraintsTarget()
      ensures Valid()
      ensures SwitchedAfter([], deviceId)
      ensures !ShowCameraSwitch()
    {
      videoInitialized := false;
      StopMediaTracks();
      InitWebcam(deviceId, videoOptions);
    }

    /** `rotateVideoInput(forward)`: with more than one device, switch to the next (or previous) one. */
    method RotateVideoInput(forward: bool)
      requires Valid()
      modifies this`videoInitialized, this`firstTimeLoad, this`trace, this`pendingUserMedia
      modifies ActiveTracks(), ConstraintsTarget()
      ensures Valid()
      ensures Rotated(forward)
    {
      var n := |availableVideoInputs|;
      if n > 1 {
        var next := NextInputIndex(activeVideoInputIndex, forward, n);
        SwitchToVideoInput(Some(availableVideoInputs[next].deviceId));
      }
    }

    /** A `switchCamera` emission: a string switches to that device id; any other value rotates, backward only for `false`. */
    method OnSwitchCameraValue(value: JsValue)
      requires Valid()
      modifies this`videoInitialized, this`firstTimeLoad, this`trace, this`pendingUserMedia
      modifies ActiveTracks(), ConstraintsTarget()
      ensures Valid()
      ensures value.Str? ==> SwitchedAfter([], Some(value.s))
      ensures !value.Str? ==> Rotated(value != Bool(false))
    {
      if value.Str? {
        SwitchToVideoInput(Some(value.s));
      } else {
        RotateVideoInput(value != Bool(false));
      }
    }

    /** Starts `detectAvailableDevices` (the enumeration request). */
    method DetectAvailableDevices()
      modifies this`trace, this`pendingDetections
      ensures trace == old(trace) + DetectionCalls()
      ensures pendingDetections == old(pendingDetections) + 1
    {
      trace := trace + DetectionCalls();
      pendingDetections := pendingDetections + 1;
    }

    /** The settlement part of `detectAvailableDevices`: the list becomes the result, or `[]` on rejection. */
    method SettleDetection(enumerated: Settled<seq<DeviceInfo>>) returns (outcome: Settled<seq<DeviceInfo>>)
      requires platform.hasEnumerateDevices && enumerated.Rejected? ==> !Nullish(enumerated.reason)
      modifies this`availableVideoInputs
      ensures outcome == GetAvailableVideoInputs(platform.hasEnumerateDevices, enumerated)
      ensures availableVideoInputs == if outcome.Fulfilled? then outcome.value else []
    {
      outcome := GetAvailableVideoInputs(platform.hasEnumerateDevices, enumerated);
      match outcome
      case Fulfilled(devices) =>
        availableVideoInputs := devices;
      case Rejected(_) =>
        availableVideoInputs := [];
    }

    /** The continuation of a background `detectAvailableDevices` (the one re-run after an acquisition). */
    method OnDevicesSettled(enumerated: Settled<seq<DeviceInfo>>) returns (outcome: Settled<seq<DeviceInfo>>)
      requires pendingDetections > 0
      requires platform.hasEnumerateDevices && enumerated.Rejected? ==> !Nullish(enumerated.reason)
      modifies this`availableVideoInputs, this`pendingDetections
      ensures outcome == GetAvailableVideoInputs(platform.hasEnumerateDevices, enumerated)
      ensures availableVideoInputs == if outcome.Fulfilled? then outcome.value else []
      ensures pendingDetections == old(pendingDetections) - 1
    {
      pendingDetections := pendingDetections - 1;
      outcome := SettleDetection(enumerated);
    }

    /** `ngAfterViewInit`: starts the initial device detection. */
    method NgAfterViewInit()
      modifies this`trace, this`pendingInitialDetections
      ensures trace == old(trace) + DetectionCalls()
      ensures pendingInitialDetections == old(pendingInitialDetections) + 1
    {
      trace := trace + DetectionCalls();
      pendingInitialDetections := pendingInitialDetections + 1;
    }

    /** The success handler of `ngAfterViewInit`'s detection: start the first device, or no particular device for an empty list. */
    method StartFirstDevice(devices: seq<DeviceInfo>)
      requires Valid()
      modifies this`videoInitialized, this`firstTimeLoad, this`trace, this`pendingUserMedia
      modifies ActiveTracks(), ConstraintsTarget()
      ensures Valid()
      ensures SwitchedAfter([], if |devices| > 0 then Some(devices[0].deviceId) else None)
    {
      SwitchToVideoInput(if |devices| > 0 then Some(devices[0].deviceId) else None);
    }

    /** The failure handler of `ngAfterViewInit`'s detection: emit `initError` with the reason, then start without a device id. */
    method StartAfterDetectionError(reason: JsValue)
      requires Valid()
      modifies this`videoInitialized, this`firstTimeLoad, this`trace, this`pendingUserMedia
      modifies ActiveTracks(), ConstraintsTarget()
      ensures Valid()
      ensures SwitchedAfter([InitError(reason, None)], None)
    {
      trace := trace + [InitError(reason, None)];
      SwitchToVideoInput(None);
    }

    /** The continuation of `ngAfterViewInit`'s detection: record the device list, then run the matching handler. */
    method OnInitialDevicesSettled(enumerated: Settled<seq<DeviceInfo>>)
      requires Valid() && pendingInitialDetections > 0
      requires platform.hasEnumerateDevices && enumerated.Rejected? ==> !Nullish(enumerated.reason)
      modifies this`availableVideoInputs, this`pendingInitialDetections
      modifies this`videoInitialized, this`firstTimeLoad, this`trace, this`pendingUserMedia
      modifies ActiveTracks(), ConstraintsTarget()
      ensures Valid()
      ensures var outcome := GetAvailableVideoInputs(platform.hasEnumerateDevices, enumerated);
        && availableVideoInputs == (if outcome.Fulfilled? then outcome.value else [])
        && (outcome.Fulfilled? ==>
              SwitchedAfter([], if |outcome.value| > 0 then Some(outcome.value[0].deviceId) else None))
        && (outcome.Rejected? ==> SwitchedAfter([InitError(outcome.reason, None)], None))
      ensures pendingInitialDetections == old(pendingInitialDetections) - 1
    {
      pendingInitialDetections := pendingInitialDetections - 1;
      var outcome := SettleDetection(enumerated);
      match outcome
      case Fulfilled(devices) =>
        StartFirstDevice(devices);
      case Rejected(reason) =>
        StartAfterDetectionError(reason);
    }

    /** Attaches and plays `stream`, records its settings and device index, becomes ready and emits `cameraSwitched`. */
    method ActivateStream(stream: MediaStream, settings: Option<TrackSettings>, index: int, deviceId: JsValue)
      requires Valid() && firstTimeLoad && index >= -1
      modifies this`mediaStream, this`activeVideoSettings, this`activeVideoInputIndex, this`videoInitialized, this`trace
      ensures Valid()
      ensures mediaStream == stream && activeVideoSettings == settings && activeVideoInputIndex == index && videoInitialized
      ensures trace == old(trace) + [AttachStream(stream), CameraSwitched(deviceId)]
    {
      mediaStream := stream;
      trace := trace + [AttachStream(stream)];
      activeVideoSettings := settings;
      activeVideoInputIndex := index;
      videoInitialized := true;
      trace := trace + [CameraSwitched(deviceId)];
    }

    /**
     * The success continuation of `getUserMedia`: store, attach and play the
     * stream; then, when its first video track can report settings, record
     * them, locate its device in the list, become ready, emit
     * `cameraSwitched` and re-run device detection. Otherwise reading the
     * settings throws `typeError` (the engine's `TypeError`), which the
     * chained `catch` reports through `initError` like a failed acquisition.
     */
    method OnUserMediaResolved(stream: MediaStream, typeError: JsValue)
      requires Valid() && pendingUserMedia > 0
      requires typeError.Obj?
      modifies this`mediaStream, this`activeVideoSettings, this`activeVideoInputIndex, this`videoInitialized, this`trace
      modifies this`pendingUserMedia, this`pendingDetections
      ensures Valid()
      ensures mediaStream == stream && pendingUserMedia == old(pendingUserMedia) - 1
      ensures HasReadableVideoTrack(stream) ==>
        var track := ActiveVideoTrack(stream).value;
        var id := DeviceIdFromTrack(track);
        && videoInitialized
        && activeVideoSettings == track.getSettings.result
        && activeVideoInputIndex == ActiveIndexFor(availableVideoInputs, id)
        && trace == old(trace) + [AttachStream(stream), CameraSwitched(id)] + DetectionCalls()
        && pendingDetections == old(pendingDetections) + 1
      ensures !HasReadableVideoTrack(stream) ==>
        && videoInitialized == old(videoInitialized)
        && activeVideoSettings == old(activeVideoSettings) && activeVideoInputIndex == old(activeVideoInputIndex)
        && trace == old(trace) + [AttachStream(stream), InitError(Field(typeError, "message"), Some(typeError))]
        && pendingDetections == old(pendingDetections)
    {
      pendingUserMedia := pendingUserMedia - 1;
      if HasReadableVideoTrack(stream) {
        var track := ActiveVideoTrack(stream).value;
        var activeDeviceId := DeviceIdFromTrack(track);
        ActivateStream(stream, track.getSettings.result, ActiveIndexFor(availableVideoInputs, activeDeviceId), activeDeviceId);
        DetectAvailableDevices();
      } else {
        mediaStream := stream;
        trace := trace + [AttachStream(stream), InitError(Field(typeError, "message"), Some(typeError))];
      }
    }

    /** The failure continuation of `getUserMedia`: emit `initError` with `err.message` and the error; stay not ready. */
    method OnUserMediaRejected(err: JsValue)
      requires Valid() && pendingUserMedia > 0
      requires !Nullish(err)
      modifies this`trace, this`pendingUserMedia
      ensures Valid()
      ensures trace == old(trace) + [InitError(Field(err, "message"), Some(err))]
      ensures pendingUserMedia == old(pendingUserMedia) - 1
    {
      pendingUserMedia := pendingUserMedia - 1;
      trace := trace + [InitError(Field(err, "message"), Some(err))];
    }

    /** `ngOnDestroy`: stop the tracks, then unsubscribe each subscription that exists, once. */
    method NgOnDestroy()
      modifies this`trace, ActiveTracks()
      ensures trace == old(trace) + StopCalls(mediaStream) + UnsubscribeCalls(triggerSubscription, switchCameraSubscription)
      ensures AllEnded(mediaStream)
    {
      StopMediaTracks();
      if triggerSubscription != null {
        trace := trace + [Unsubscribe(triggerSubscription)];
      }
      if switchCameraSubscription != null {
        trace := trace + [Unsubscribe(switchCameraSubscription)];
      }
    }

    /**
     * `takeSnapshot`: the canvas takes the video's native size when its
     * width is non-zero, else the configured size; the frame is encoded with
     * `imageType` (default `image/jpeg`) and `imageQuality` (0.92 when zero);
     * pixel data is read back only when `captureImageData` is set; the image
     * is emitted through `imageCapture`. The canvas encoder and the pixel
     * read-back are the browser's, passed in as functions of the canvas size.
     */
    method TakeSnapshot(nativeVideoWidth: int, nativeVideoHeight: int,
                        toDataUrl: (int, int, string, real) -> string,
                        getImageData: (int, int) -> PixelBuffer)
      returns (image: WebcamImage, canvasWidth: int, canvasHeight: int)
      modifies this`trace
      ensures canvasWidth == (if nativeVideoWidth != 0 then nativeVideoWidth else width)
      ensures canvasHeight == (if nativeVideoWidth != 0 then nativeVideoHeight else height)
      ensures fresh(image) && image.Valid() && image.cachedBase64 == None
      ensures image.mimeType == (if imageType != "" then imageType else DEFAULT_IMAGE_TYPE)
      ensures image.imageAsDataUrl ==
        toDataUrl(canvasWidth, canvasHeight, image.mimeType, if imageQuality != 0.0 then imageQuality else DEFAULT_IMAGE_QUALITY)
      ensures image.imageData.Some? <==> captureImageData
      ensures captureImageData ==> image.imageData == Some(getImageData(canvasWidth, canvasHeight))
      ensures trace == old(trace) + [ImageCapture(image)]
    {
      canvasWidth, canvasHeight := width, height;
      if nativeVideoWidth != 0 {
        canvasWidth, canvasHeight := nativeVideoWidth, nativeVideoHeight;
      }
      var mimeType := if imageType != "" then imageType else DEFAULT_IMAGE_TYPE;
      var quality := if imageQuality != 0.0 then imageQuality else DEFAULT_IMAGE_QUALITY;
      var dataUrl := toDataUrl(canvasWidth, canvasHeight, mimeType, quality);
      var imageData: Option<PixelBuffer> := None;
      if captureImageData {
        imageData := Some(getImageData(canvasWidth, canvasHeight));
      }
      image := new WebcamImage(dataUrl, mimeType, imageData);
      trace := trace + [ImageCapture(image)];
    }

    /** While the switch button is shown, clicking it (`rotateVideoInput(true)`) targets a device of the list. */
    lemma ShownSwitchTargetsKnownDevice()
      requires Valid() && ShowCameraSwitch()
      ensures 0 <= NextInputIndex(activeVideoInputIndex, true, |availableVideoInputs|) < |availableVideoInputs|
    {
    }
  }

  /**
   * `DEFAULT_VIDEO_OPTIONS` is created once, and every component starts with
   * it as `videoOptions`: two components share one constraints object, so a
   * device id one of them merges in is seen by the other.
   */
  method NewComponentsShareDefaults(platform: Platform) returns (a: WebcamComponent, b: WebcamComponent)
    ensures fresh(a) && fresh(b) && a != b
    ensures a.videoOptions == b.videoOptions == a.defaults == b.defaults
    ensures a.defaults.fields == map["facingMode" := Str(DEFAULT_FACING_MODE)]
  {
    var defaults := NewDefaultVideoOptions();
    a := new WebcamComponent(defaults, platform);
    b := new WebcamComponent(defaults, platform);
  }
}
