# ngx-webcam in Dafny

A model of the core of **ngx-webcam**, an Angular camera widget. The library
ships as four compiled copies of one TypeScript source. The model follows the
flat ES2015 bundle `dist/fesm2015/ngx-webcam.js` and cites the other copies
where their lines are the clearer reference. What is modelled:

- **The `WebcamComponent` device-selection state machine** (`webcam_component.dfy`,
  module `Webcam`). The component is a class with the source's fields:
  `availableVideoInputs`, `activeVideoInputIndex`, `videoInitialized`,
  `firstTimeLoad`, `mediaStream`, `activeVideoSettings` and the two
  subscriptions, plus the host inputs.
  - Each promise continuation is a separate method that the environment calls
    once the platform has answered: the `getUserMedia` success and failure, and
    the two kinds of device detection.
  - Ghost counters of outstanding requests make sure a continuation runs only
    after its request was made.
  - Platform calls and emitted events are appended to an effect trace. The
    platform calls are `stop`, `getUserMedia`, `enumerateDevices`, attaching
    the stream, and `unsubscribe`. The events are `initError`,
    `cameraSwitched` and `imageCapture`. Orderings such as "every old track
    is stopped before the new stream is requested" are stated on this trace.
- **Constraint handling** (`constraints.dfy`). `getValueFromConstrainDOMString`
  and `getMediaConstraintsForDevice` are modelled here. The merge writes into
  a heap object in place, and the default `videoOptions` *is* the shared
  static `DEFAULT_VIDEO_OPTIONS` object, so an unconfigured component writes
  device ids into the shared defaults. The model keeps that aliasing.
- **Track inspection** (`tracks.dfy`): `getDeviceIdFromMediaStreamTrack`,
  `getFacingModeFromMediaStreamTrack`, `isUserFacing` and
  `getActiveVideoTrack`. Tracks and streams are objects; `stop()` ends a
  track.
- **The mirroring decision** `isMirrorImage` (`mirror.dfy`).
- **`WebcamUtil.getAvailableVideoInputs`** (`device_util.dfy`).
- **The `WebcamImage` value object** (`webcam_image.dfy`). It holds the base64
  payload taken from the data URL (the data-URL syntax of section 3 of RFC
  2397), cached on first read.
- **The preview box** (`preview.dfy`), as a sketch over exact reals.

JavaScript semantics the component depends on are written out in
`js_values.dfy`:

- truthiness, `String(x)` and plain-object property lookup;
- `instanceof String` is false for a primitive string, so a primitive-string
  constraint yields `null`;
- `Array(x).length > 0` is true for every `x`, so an empty array constraint
  yields the string `"undefined"`;
- `%` truncates toward zero, which `JsRem` states. The rotation never gives
  it a negative dividend, because the index is at least -1 and the step at
  least 1. A backward step from the unknown index -1 lands on `n - 2`, since
  -1 is treated as a position and `n - 1` steps are added to it;
- `String.prototype.replace` with a string pattern removes only the first
  occurrence;
- `err.message || err` falls back to the error itself.

## Model

Paths below are relative to the repository root. Unless another file is
named, lines are in `dist/fesm2015/ngx-webcam.js`.

| member | source | states |
|---|---|---|
| JsValues.NatToDecimal | dist/fesm2015/ngx-webcam.js:210-211 | `String(n)` of a natural number: decimal digits without a leading zero whose value is `n` |
| JsValues.AsciiLower | dist/fesm2015/ngx-webcam.js:197-200 | `toLowerCase` keeps the length, maps each upper-case ASCII letter to its lower-case letter and changes no other character |
| Constraints.MediaTrackConstraints.constructor | dist/fesm2015/ngx-webcam.js:433 | a constraints dictionary holds exactly the given members |
| Constraints.NewDefaultVideoOptions | dist/fesm2015/ngx-webcam.js:433 | the shared default options are a fresh object `{facingMode: 'environment'}` |
| Constraints.ValueFromConstrainDomString | dist/fesm2015/ngx-webcam.js:205-223 | result is a string or `null`; `null` for falsy input and for primitive strings, booleans and numbers; a `String` object gives its text; an array gives `String` of its first element, and an empty one `"undefined"`; an object gives `exact` when truthy, else `ideal` when truthy, else `null` |
| Constraints.MergeDeviceId | dist/fesm2015/ngx-webcam.js:152-158 | `deviceId` becomes `{exact: id}` exactly when the id is truthy; every other member keeps its value and no other key appears |
| Constraints.GetMediaConstraintsForDevice | dist/fesm2015/ngx-webcam.js:152-158 | returns the base object itself, or the shared defaults without a base, after merging the device id into that object in place |
| Constraints.MergeKeepsDefaults | dist/fesm2015/ngx-webcam.js:152-158 | merging a device id into the shared defaults never loses their `facingMode: 'environment'` |
| Constraints.ExactDeviceIdRoundTrip | dist/fesm2015/ngx-webcam.js:214-215 | the `{exact: id}` written by the merge reads back as `id` |
| Constraints.ConstrainDomStringForms | dist/fesm2015/ngx-webcam.js:205-223 | a `String` object, a one-element array and `{ideal: id}` all yield `id`; a primitive string yields `null` |
| Tracks.MediaTrack.constructor | dist/fesm2015/ngx-webcam.js:398-404 | a new track has not ended |
| Tracks.MediaTrack.Stop | dist/fesm2015/ngx-webcam.js:402 | after `stop()` the track has ended |
| Tracks.MediaStream.constructor | dist/fesm2015/ngx-webcam.js:399-401 | a stream holds exactly the given tracks, in order |
| Tracks.MediaStream.VideoTracks | dist/fesm2015/ngx-webcam.js:363 | `getVideoTracks()` holds only the stream's video tracks, and every one of them, headed by the first video track of the stream |
| Tracks.VideoTracksOf | dist/fesm2015/ngx-webcam.js:363 | the video tracks of a list are members of it of kind `video`, none is missed, and the list's first video track comes first |
| Tracks.ActiveVideoTrack | dist/fesm2015/ngx-webcam.js:362-364 | there is an active track exactly when there is a stream with at least one video track, and it is the first video track of the stream |
| Tracks.DeviceIdFromTrack | dist/fesm2015/ngx-webcam.js:166-174 | the settings' device id when truthy; otherwise the extracted `deviceId` constraint when truthy; otherwise `undefined` |
| Tracks.FacingModeFromTrack | dist/fesm2015/ngx-webcam.js:182-192 | `undefined` without a track; the settings' facing mode when truthy; otherwise the extracted constraint when truthy; otherwise `undefined` |
| Tracks.IsUserFacing | dist/fesm2015/ngx-webcam.js:197-200 | true exactly when a facing mode is found and its lower-case form is `'user'`; false when none is found |
| Tracks.EchoedRequestYieldsDeviceId | dist/fesm2015/ngx-webcam.js:166-174 | a track whose settings lack a device id but which echoes the `{exact: id}` request is recognised as device `id` |
| Mirror.MirrorMode | dist/fesm2015/ngx-webcam.js:371-382 | the lower-cased mode named by a non-empty string or by a truthy `.x`; `'auto'` otherwise |
| Mirror.IsMirrorImage | dist/fesm2015/ngx-webcam.js:365-392 | false without an active track; `'always'` mirrors, `'never'` does not, any other mode mirrors exactly the user-facing tracks |
| Mirror.MirrorSettingCaseInsensitive | dist/esm5/src/app/modules/webcam/webcam/webcam.component.js:332-343 | `'ALWAYS'` and `{x: 'Always'}` force mirroring and `'Never'` prevents it |
| Mirror.AutoFollowsFacingMode | dist/fesm2015/ngx-webcam.js:390-391 | with the default mode, a `'user'` camera is mirrored and an `'environment'` camera is not |
| DeviceUtil.FilterVideoInputs | dist/fesm2015/ngx-webcam.js:64 | the result holds only devices of kind `videoinput`, each taken from the input, and keeps every such device |
| DeviceUtil.FilterVideoInputsAppend | dist/fesm2015/ngx-webcam.js:64 | filtering distributes over concatenation, so the cameras keep their enumeration order |
| DeviceUtil.FilterVideoInputsKeepsCameras | dist/fesm2015/ngx-webcam.js:64 | a list of cameras only is returned unchanged |
| DeviceUtil.FilterVideoInputsIdempotent | dist/fesm2015/ngx-webcam.js:64 | filtering twice equals filtering once |
| DeviceUtil.GetAvailableVideoInputs | dist/bundles/ngx-webcam.umd.js:99-112 | rejects with `'enumerateDevices() not supported.'` without the capability; otherwise fulfils with the filtered cameras, or rejects with `err.message` when truthy and with `err` otherwise |
| Image.FirstIndexOf | dist/fesm2015/ngx-webcam.js:26 | the position of the first occurrence of the pattern, or -1 when there is none |
| Image.RemoveFirst | dist/fesm2015/ngx-webcam.js:26 | without an occurrence the string is unchanged; otherwise putting the pattern back at its first occurrence restores the string |
| Image.GetDataFromDataUrl | dist/fesm2015/ngx-webcam.js:25-27 | a data URL starting with `data:<mime>;base64,` gives what follows the header; a string without that header comes back unchanged |
| Image.Base64OfDataUrl | dist/fesm2015/ngx-webcam.js:25-27 | stripping the header from `data:<mime>;base64,` + payload gives the payload back |
| Image.RemoveFirstSplits | dist/fesm2015/ngx-webcam.js:26 | when `pre` holds no earlier occurrence, removing the pattern from `pre + pat + post` gives `pre + post` |
| Image.RemovesOnlyFirstHeader | dist/fesm2015/ngx-webcam.js:25-27 | a doubled header loses only its first copy |
| Image.WebcamImage.constructor | dist/bundles/ngx-webcam.umd.js:38-46 | the `imageAsDataUrl` and `imageData` getters and the MIME type return the constructor arguments unchanged; the cache starts empty |
| Image.WebcamImage.ImageAsBase64 | dist/fesm2015/ngx-webcam.js:32-35 | the result is the data URL with the header removed, and the cache then holds it |
| Image.ReadTwice | dist/fesm2015/ngx-webcam.js:32-35 | two reads of `imageAsBase64` on a well-formed data URL both return the payload |
| Preview.AspectRatio | dist/fesm2015/ngx-webcam.js:315-324 | the stream's ratio when both native sides are positive, otherwise width over height |
| Preview.PreviewWidth | dist/fesm2015/ngx-webcam.js:294-297 | `Math.min(width, height * ratio)`: at most each of the two, and equal to one of them |
| Preview.PreviewHeight | dist/fesm2015/ngx-webcam.js:298-301 | `Math.min(height, width / ratio)`: at most each of the two, and equal to one of them |
| Preview.PreviewFitsAndKeepsRatio | dist/fesm2015/ngx-webcam.js:294-301 | the preview fits the configured box and keeps the requested ratio exactly |
| Preview.PreviewExamples | dist/fesm2015/ngx-webcam.js:294-324 | a 640x480 box shows 1920x1080 as 640x360 and 1280x960 as 640x480 |
| Webcam.JsRem | dist/fesm2015/ngx-webcam.js:275 | JavaScript `%`: for a non-negative dividend the Euclidean remainder, for a negative one the negated remainder of its magnitude |
| Webcam.NextInputIndex | dist/fesm2015/ngx-webcam.js:274-275 | from any index at or above -1 the next index is in `[0, N)`; from a known device it is the cyclic successor going forward and the cyclic predecessor going backward |
| Webcam.RotateFromUnknown | dist/esm5/src/app/modules/webcam/webcam/webcam.component.js:216-222 | from index -1, forward selects index 0 and backward selects index N-2 |
| Webcam.RotationSteps | dist/fesm2015/ngx-webcam.js:272-278 | from a known device, a forward step followed by a backward step returns to it, and so does the reverse order |
| Webcam.FindDeviceIndex | dist/fesm2015/ngx-webcam.js:346-347 | `findIndex`: the first device with an equal id, or -1 when no device has one |
| Webcam.ActiveIndexFor | dist/fesm2015/ngx-webcam.js:346-347 | -1 for a falsy id; otherwise the first device whose id equals it, or -1 when none does |
| Webcam.RequestedDeviceIsMatched | dist/fesm2015/ngx-webcam.js:345-347 | with distinct device ids, a track that only echoes the request for device `i` is located at index `i` |
| Webcam.InitEffect | dist/fesm2015/ngx-webcam.js:328-361 | without `getUserMedia`, an `initError` with `'Cannot read UserMedia from MediaDevices.'`; on the first load, a request for the shared defaults; later, a request for the host constraints, exactly as they are for a falsy id, and with exactly one extra key `deviceId: {exact: id}` for a truthy id |
| Webcam.UnsubscribeCalls | dist/fesm2015/ngx-webcam.js:408-415 | one `unsubscribe()` for each subscription that exists, the trigger's first, and nothing else |
| Webcam.StopCallsOf | dist/fesm2015/ngx-webcam.js:398-404 | one `stop()` call per track, in `getTracks()` order |
| Webcam.WebcamComponent.constructor | dist/fesm2015/ngx-webcam.js:75-110 | 640x480, the shared defaults as `videoOptions`, the camera switch allowed, `image/jpeg` at 0.92, no devices, index -1, not ready, not loaded, no stream |
| Webcam.WebcamComponent.SetTrigger | dist/fesm2015/ngx-webcam.js:114-122 | unsubscribes the previous trigger subscription, if any, then stores a new one; for a nullish observable `subscribe` throws and the stale subscription stays in the field |
| Webcam.WebcamComponent.SetSwitchCamera | dist/fesm2015/ngx-webcam.js:130-144 | unsubscribes the previous switch subscription, if any, then stores a new one; for a nullish observable the stale subscription stays in the field |
| Webcam.WebcamComponent.ShowCameraSwitch | dist/esm5/src/app/modules/webcam/webcam/webcam.component.js:467 | the switch button shows only with at least two devices and, in a valid state, only with a stream attached after the first load |
| Webcam.WebcamComponent.StopMediaTracks | dist/fesm2015/ngx-webcam.js:398-404 | every track of the current stream, audio and video, is stopped in order; nothing happens without a stream |
| Webcam.WebcamComponent.InitWebcam | dist/fesm2015/ngx-webcam.js:328-361 | emits the `InitEffect`; the first call sets `firstTimeLoad`, which never returns to false; later calls merge the device id into the host constraints in place |
| Webcam.WebcamComponent.SwitchToVideoInput | dist/fesm2015/ngx-webcam.js:282-286 | not ready; every old track stopped, with its `stop()` calls before the acquisition request; the camera-switch button hidden |
| Webcam.WebcamComponent.RotateVideoInput | dist/fesm2015/ngx-webcam.js:272-278 | with more than one device, a switch to the in-range device at `(index + (forward ? 1 : N-1)) % N`; otherwise nothing changes |
| Webcam.WebcamComponent.OnSwitchCameraValue | dist/fesm2015/ngx-webcam.js:135-143 | a string switches to that device id; any other value rotates, backward only for exactly `false` |
| Webcam.WebcamComponent.DetectAvailableDevices | dist/fesm2015/ngx-webcam.js:419-421 | issues `enumerateDevices()` when the platform offers it |
| Webcam.WebcamComponent.SettleDetection | dist/fesm2015/ngx-webcam.js:422-429 | the outcome is `getAvailableVideoInputs`'s; the device list becomes the result on success and `[]` on failure |
| Webcam.WebcamComponent.OnDevicesSettled | dist/bundles/ngx-webcam.umd.js:490-503 | a background detection settles as `SettleDetection` does |
| Webcam.WebcamComponent.NgAfterViewInit | dist/fesm2015/ngx-webcam.js:224-225 | starts the initial device detection |
| Webcam.WebcamComponent.StartFirstDevice | dist/fesm2015/ngx-webcam.js:226-229 | switches to the first device's id, or to no device for an empty list |
| Webcam.WebcamComponent.StartAfterDetectionError | dist/fesm2015/ngx-webcam.js:230-234 | emits `initError` with the reason, then still switches to no particular device |
| Webcam.WebcamComponent.OnInitialDevicesSettled | dist/bundles/ngx-webcam.umd.js:277-289 | records the device list, then starts the first device on success, or reports the error and starts without a device id on failure |
| Webcam.WebcamComponent.ActivateStream | dist/fesm2015/ngx-webcam.js:341-349 | stores and attaches the stream, records settings and index, becomes ready, emits `cameraSwitched` |
| Webcam.WebcamComponent.OnUserMediaResolved | dist/fesm2015/ngx-webcam.js:340-356 | stores the stream; with a readable video track: the settings, the first matching index (or -1), ready, `cameraSwitched` with the track's id, then a new detection; otherwise the thrown `TypeError` reaches `initError` with its message, and readiness, settings and index keep their old values |
| Webcam.WebcamComponent.OnUserMediaRejected | dist/fesm2015/ngx-webcam.js:354-356 | emits `initError` with `err.message` and the error; nothing else changes, so the widget stays not ready and valid |
| Webcam.WebcamComponent.NgOnDestroy | dist/esm2015/src/app/modules/webcam/webcam/webcam.component.js:169-172 | stops every track, then unsubscribes the trigger and switch subscriptions that exist, each once |
| Webcam.WebcamComponent.TakeSnapshot | dist/fesm2015/ngx-webcam.js:243-267 | canvas at the native size when `videoWidth` is truthy, else at the configured size; MIME type falls back to `image/jpeg` and a zero quality to 0.92; pixel data only when `captureImageData`; the image is emitted |
| Webcam.NewComponentsShareDefaults | dist/fesm2015/ngx-webcam.js:81 | two components built from the one `DEFAULT_VIDEO_OPTIONS` object share it as `videoOptions`, which starts as `{facingMode: 'environment'}` |
| Webcam.WebcamComponent.ShownSwitchTargetsKnownDevice | dist/esm5/src/app/modules/webcam/webcam/webcam.component.js:467 | while the switch button is shown, clicking it targets a device of the list |

## Left out

- Floating point: the preview sizing uses exact reals, and `AspectRatio` and `PreviewHeight` require a positive height and ratio. IEEE rounding, infinities and `NaN` are not modelled.
- Numbers elsewhere are integers only. `NaN` and fractional values of `width`, `height` or `videoWidth` are not modelled, and `imageQuality` is a real whose only falsy value is 0.
- JsValues.AsciiLower: `toLowerCase` is modelled for ASCII letters only; other Unicode case mappings are not modelled.
- Webcam.WebcamComponent.OnUserMediaRejected and DeviceUtil.GetAvailableVideoInputs require a non-nullish rejection reason. With `null` or `undefined`, reading `err.message` throws inside the handler; that path is not modelled.
- Webcam.WebcamComponent.OnUserMediaResolved: the engine's `TypeError` object is a parameter, because its message text depends on the browser.
- An exception thrown by `detectAvailableDevices` after a successful acquisition is an unhandled rejection. Only the device list it leaves behind is modelled.
- The race between overlapping acquisitions and detections is not verified. Continuations run one at a time, in any order the environment chooses.
- Canvas and video element: `drawImage`, `toDataURL`, `getImageData`, `srcObject`, `play()` and `videoWidth`/`videoHeight`. `TakeSnapshot` takes the encoder and the read-back as functions, and attaching and playing a stream is one trace entry.
- Webcam.WebcamComponent.SetTrigger and Webcam.WebcamComponent.SetSwitchCamera: for a nullish observable, the `TypeError` that `subscribe` throws goes back to the caller. The model records only the state left behind, which is the unsubscribe call and the stale subscription. A later `ngOnDestroy` then unsubscribes that stale subscription a second time. A non-nullish value that is not an observable is not modelled.
- Host observables: the `trigger` and `switchCamera` setters create a fresh subscription object. An emission is modelled by calling `TakeSnapshot` or `OnSwitchCameraValue` directly. `EventEmitter` and rxjs mechanics are not modelled.
- A stream is assumed to offer `getTracks`, as every `MediaStream` does.
- The framework glue is not modelled: decorators and `__metadata`, template rendering beyond the switch-button condition (`ShowCameraSwitch`), `videoStyleClasses` and CSS, `videoResize` (an empty change-detection hook), and module registration.
- The `WebcamInitError` and `WebcamMirrorProperties` classes carry no behaviour. `WebcamInitError` is the `InitError` trace entry, and `WebcamMirrorProperties` is `MirrorProperties`.
- The `imageClick` event is emitted by the template only and is not modelled.
