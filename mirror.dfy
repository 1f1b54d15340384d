/**
 * The preview's mirroring decision (`isMirrorImage`): an explicit
 * `'always'` / `'never'` setting wins, anything else mirrors exactly the
 * user-facing cameras, and without an active track nothing is mirrored.
 */
module Mirror {
  import opened Wrappers
  import opened JsValues
  import opened Tracks

  /** The `mirrorImage` input: unset, a string, or a `WebcamMirrorProperties` object `{x}`. */
  datatype MirrorSetting =
    | MirrorUnset
    | MirrorString(value: string)
    | MirrorProperties(x: Option<string>)

  /**
   * The lower-cased mirror mode the setting asks for: `'auto'` unless a
   * non-empty string, or a properties object with a non-empty `x`, names one.
   */
  function MirrorMode(setting: MirrorSetting): (r: string)
    ensures setting.MirrorString? && setting.value != "" ==> r == AsciiLower(setting.value)
    ensures setting.MirrorProperties? && setting.x.Some? && setting.x.value != "" ==> r == AsciiLower(setting.x.value)
    ensures setting.MirrorUnset? || setting == MirrorString("") ==> r == "auto"
    ensures setting.MirrorProperties? && (setting.x.None? || setting.x.value == "") ==> r == "auto"
  {
    match setting
    case MirrorString(s) => if s != "" then AsciiLower(s) else "auto"
    case MirrorProperties(x) => if x.Some? && x.value != "" then AsciiLower(x.value) else "auto"
    case MirrorUnset => "auto"
  }

  /**
   * `isMirrorImage` for the given active video track: false without a track;
   * otherwise true for mode `'always'`, false for `'never'`, and for every
   * other mode true exactly when the track is user facing.
   */
  function IsMirrorImage(activeTrack: Option<TrackInfo>, setting: MirrorSetting): (r: bool)
    ensures activeTrack.None? ==> !r
    ensures activeTrack.Some? && MirrorMode(setting) == "always" ==> r
    ensures MirrorMode(setting) == "never" ==> !r
    ensures MirrorMode(setting) != "always" && MirrorMode(setting) != "never" ==> (r <==> IsUserFacing(activeTrack))
  {
    if activeTrack.None? then false
    else
      var mode := MirrorMode(setting);
      if mode == "always" then true
      else if mode == "never" then false
      else IsUserFacing(activeTrack)
  }

  /** Mirroring is case-insensitive: `'ALWAYS'`, `'Always'` and `{x: 'always'}` all force it. */
  lemma MirrorSettingCaseInsensitive(activeTrack: TrackInfo)
    ensures IsMirrorImage(Some(activeTrack), MirrorString("ALWAYS"))
    ensures IsMirrorImage(Some(activeTrack), MirrorProperties(Some("Always")))
    ensures !IsMirrorImage(Some(activeTrack), MirrorString("Never"))
  {
    assert AsciiLower("ALWAYS") == "always";
    assert AsciiLower("Always") == "always";
    assert AsciiLower("Never") == "never";
  }

  /** With the default `'auto'`, a camera reporting facing mode `'user'` is mirrored and `'environment'` is not. */
  lemma AutoFollowsFacingMode(settings: TrackSettings)
    requires settings.facingMode == Some("user") || settings.facingMode == Some("environment")
    ensures var track := TrackInfo("video", Returns(Some(settings)), Missing);
      IsMirrorImage(Some(track), MirrorUnset) <==> settings.facingMode == Some("user")
  {
    assert AsciiLower("user") == "user";
    assert AsciiLower("environment") == "environment";
  }
}
