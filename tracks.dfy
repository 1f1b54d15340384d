/**
 * Media tracks and streams as the platform hands them to the component, and
 * the component's static helpers that read a device id or a facing mode out of
 * a track (`getDeviceIdFromMediaStreamTrack`,
 * `getFacingModeFromMediaStreamTrack`, `isUserFacing`).
 *
 * Browsers populate a track differently: the resolved settings may be missing
 * and only the requested constraints present, so each helper tries the
 * settings first and the constraints second.
 */
module Tracks {
  import opened Wrappers
  import opened JsValues
  import opened Constraints

  /** The members of `MediaTrackSettings` the component reads; each is a string when present. */
  datatype TrackSettings = TrackSettings(
    deviceId: Option<string>,
    facingMode: Option<string>,
    width: Option<int>,
    height: Option<int>)

  /**
   * An accessor method of a track such as `getSettings`: either the method is
   * missing, or calling it returns a falsy value (`None`) or an object.
   */
  datatype Accessor<+T> = Missing | Returns(result: Option<T>) {
    /** `track.getX && track.getX()`: the method exists and returned an object. */
    predicate Yields() {
      Returns? && result.Some?
    }
  }

  /** What a track reports about itself; `kind` is `"video"` or `"audio"`. */
  datatype TrackInfo = TrackInfo(
    kind: string,
    getSettings: Accessor<TrackSettings>,
    getConstraints: Accessor<map<string, JsValue>>)

  /** A live media track; `stop()` ends it. */
  class MediaTrack {
    const info: TrackInfo
    var ended: bool

    constructor (info: TrackInfo)
      ensures this.info == info && !ended
    {
      this.info := info;
      ended := false;
    }

    /** `MediaStreamTrack.stop`. */
    method Stop()
      modifies this
      ensures ended
    {
      ended := true;
    }
  }

  /** A media stream; `getTracks()` lists its audio and video tracks. */
  class MediaStream {
    const tracks: seq<MediaTrack>

    constructor (tracks: seq<MediaTrack>)
      ensures this.tracks == tracks
    {
      this.tracks := tracks;
    }

    /** `getVideoTracks()`: the video tracks, in stream order, so the first one comes first. */
    function VideoTracks(): (r: seq<MediaTrack>)
      ensures forall i :: 0 <= i < |r| ==> r[i] in tracks && r[i].info.kind == "video"
      ensures forall i :: 0 <= i < |tracks| && tracks[i].info.kind == "video" ==> tracks[i] in r
      ensures forall i :: FirstVideoAt(tracks, i) ==> |r| > 0 && r[0] == tracks[i]
    {
      VideoTracksOf(tracks)
    }
  }

  /** `ts[i]` is a video track and no track before it is one. */
  predicate FirstVideoAt(ts: seq<MediaTrack>, i: int) {
    0 <= i < |ts| && ts[i].info.kind == "video" && forall j :: 0 <= j < i ==> ts[j].info.kind != "video"
  }

  /** The video tracks of a track list, in order; the first video track of the list heads them. */
  function VideoTracksOf(ts: seq<MediaTrack>): (r: seq<MediaTrack>)
    ensures forall i :: 0 <= i < |r| ==> r[i] in ts && r[i].info.kind == "video"
    ensures forall i :: 0 <= i < |ts| && ts[i].info.kind == "video" ==> ts[i] in r
    ensures forall i :: FirstVideoAt(ts, i) ==> |r| > 0 && r[0] == ts[i]
  {
    if ts == [] then []
    else if ts[0].info.kind == "video" then
      FirstVideoAtHead(ts);
      [ts[0]] + VideoTracksOf(ts[1..])
    else
      FirstVideoAtTail(ts);
      VideoTracksOf(ts[1..])
  }

  /** When the list starts with a video track, that track is its first video track. */
  lemma FirstVideoAtHead(ts: seq<MediaTrack>)
    requires ts != [] && ts[0].info.kind == "video"
    ensures forall i :: FirstVideoAt(ts, i) ==> i == 0
  {
    forall i | FirstVideoAt(ts, i)
      ensures i == 0
    {
      if i > 0 {
        assert false;
      }
    }
  }

  /** When the list does not start with a video track, its first video track is the tail's first one. */
  lemma FirstVideoAtTail(ts: seq<MediaTrack>)
    requires ts != [] && ts[0].info.kind != "video"
    ensures forall i :: FirstVideoAt(ts, i) ==> FirstVideoAt(ts[1..], i - 1)
  {
    forall i | FirstVideoAt(ts, i)
      ensures FirstVideoAt(ts[1..], i - 1)
    {
      assert ts[1..][i - 1] == ts[i];
    }
  }

  /** `getActiveVideoTrack()`: the first video track of the stream, if there is a stream and it has one. */
  function ActiveVideoTrack(stream: MediaStream?): (r: Option<TrackInfo>)
    ensures r.Some? <==> stream != null && |stream.VideoTracks()| > 0
    ensures stream != null ==> forall i :: FirstVideoAt(stream.tracks, i) ==> r == Some(stream.tracks[i].info)
    ensures r.Some? ==> r.value.kind == "video" && exists i :: 0 <= i < |stream.tracks| && stream.tracks[i].info == r.value
  {
    if stream != null && |stream.VideoTracks()| > 0 then Some(stream.VideoTracks()[0].info) else None
  }

  /** A string member read through `if (x)`: `None` when absent or falsy. */
  function NonEmpty(o: Option<string>): (r: Option<string>)
    ensures r.Some? ==> r.value != ""
  {
    if DeviceIdTruthy(o) then o else None
  }

  /** `track.getSettings && track.getSettings() && track.getSettings().deviceId`, when truthy. */
  function SettingsDeviceId(track: TrackInfo): Option<string> {
    if track.getSettings.Yields() then NonEmpty(track.getSettings.result.value.deviceId) else None
  }

  /** `track.getSettings && track.getSettings() && track.getSettings().facingMode`, when truthy. */
  function SettingsFacingMode(track: TrackInfo): Option<string> {
    if track.getSettings.Yields() then NonEmpty(track.getSettings.result.value.facingMode) else None
  }

  /** A constraints member, `track.getConstraints().key`, or `undefined`. */
  function ConstraintOf(track: TrackInfo, key: string): JsValue {
    if track.getConstraints.Yields() && key in track.getConstraints.result.value
    then track.getConstraints.result.value[key]
    else Undefined
  }

  /**
   * `getDeviceIdFromMediaStreamTrack`: the settings' device id when truthy;
   * otherwise the value extracted from a truthy `deviceId` constraint;
   * otherwise `undefined`.
   */
  function DeviceIdFromTrack(track: TrackInfo): (r: JsValue)
    ensures r.Str? || r.Null? || r.Undefined?
    ensures SettingsDeviceId(track).Some? ==> r == Str(SettingsDeviceId(track).value)
    ensures SettingsDeviceId(track).None? && Truthy(ConstraintOf(track, "deviceId")) ==>
      r == ValueFromConstrainDomString(ConstraintOf(track, "deviceId"))
    ensures SettingsDeviceId(track).None? && !Truthy(ConstraintOf(track, "deviceId")) ==> r == Undefined
  {
    var fromSettings := SettingsDeviceId(track);
    if fromSettings.Some? then Str(fromSettings.value)
    else if Truthy(ConstraintOf(track, "deviceId")) then ValueFromConstrainDomString(ConstraintOf(track, "deviceId"))
    else Undefined
  }

  /**
   * `getFacingModeFromMediaStreamTrack`: `undefined` for an absent track; the
   * settings' facing mode when truthy; otherwise the value extracted from a
   * truthy `facingMode` constraint; otherwise `undefined`.
   */
  function FacingModeFromTrack(track: Option<TrackInfo>): (r: JsValue)
    ensures r.Str? || r.Null? || r.Undefined?
    ensures track.None? ==> r == Undefined
    ensures track.Some? && SettingsFacingMode(track.value).Some? ==>
      r == Str(SettingsFacingMode(track.value).value)
    ensures track.Some? && SettingsFacingMode(track.value).None? && Truthy(ConstraintOf(track.value, "facingMode")) ==>
      r == ValueFromConstrainDomString(ConstraintOf(track.value, "facingMode"))
    ensures track.Some? && SettingsFacingMode(track.value).None? && !Truthy(ConstraintOf(track.value, "facingMode")) ==>
      r == Undefined
  {
    if track.None? then Undefined
    else
      var fromSettings := SettingsFacingMode(track.value);
      if fromSettings.Some? then Str(fromSettings.value)
      else if Truthy(ConstraintOf(track.value, "facingMode")) then ValueFromConstrainDomString(ConstraintOf(track.value, "facingMode"))
      else Undefined
  }

  /** `isUserFacing`: the track's facing mode, lower-cased, is `'user'`; false when no facing mode is found. */
  function IsUserFacing(track: Option<TrackInfo>): (r: bool)
    ensures r <==> FacingModeFromTrack(track).Str? && AsciiLower(FacingModeFromTrack(track).s) == "user"
    ensures !Truthy(FacingModeFromTrack(track)) ==> !r
  {
    var facingMode := FacingModeFromTrack(track);
    if Truthy(facingMode) then AsciiLower(facingMode.s) == "user" else false
  }

  /**
   * A track that reports no device id in its settings but echoes the request
   * made for `{exact: id}` is recognised as that device.
   */
  lemma EchoedRequestYieldsDeviceId(track: TrackInfo, id: string, base: map<string, JsValue>)
    requires id != ""
    requires SettingsDeviceId(track).None?
    requires track.getConstraints == Returns(Some(MergeDeviceId(Some(id), base)))
    ensures DeviceIdFromTrack(track) == Str(id)
  {
    assert ConstraintOf(track, "deviceId") == ExactDeviceId(id);
    ExactDeviceIdRoundTrip(id);
  }
}
