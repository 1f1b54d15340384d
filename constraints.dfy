/**
 * Video-track constraints: reading a value out of a `ConstrainDOMString`
 * (`getValueFromConstrainDOMString`) and merging a device id into a
 * constraints object (`getMediaConstraintsForDevice`).
 *
 * A constraints dictionary is a heap object because the component writes into
 * it in place, and its default value is one shared object
 * (`DEFAULT_VIDEO_OPTIONS`).
 */
module Constraints {
  import opened Wrappers
  import opened JsValues

  /** The facing mode of the shared default video options, `{facingMode: 'environment'}`. */
  const DEFAULT_FACING_MODE: string := "environment"

  /** A `MediaTrackConstraints` dictionary that the component may mutate. */
  class MediaTrackConstraints {
    var fields: map<string, JsValue>

    constructor (fields: map<string, JsValue>)
      ensures this.fields == fields
    {
      this.fields := fields;
    }
  }

  /** The shared default options still carry `facingMode: 'environment'`. */
  predicate DefaultsIntact(fields: map<string, JsValue>) {
    "facingMode" in fields && fields["facingMode"] == Str(DEFAULT_FACING_MODE)
  }

  /** Creates the object that plays the part of the static `DEFAULT_VIDEO_OPTIONS`. */
  method NewDefaultVideoOptions() returns (c: MediaTrackConstraints)
    ensures fresh(c)
    ensures c.fields == map["facingMode" := Str(DEFAULT_FACING_MODE)]
    ensures DefaultsIntact(c.fields)
  {
    c := new MediaTrackConstraints(map["facingMode" := Str(DEFAULT_FACING_MODE)]);
  }

  /**
   * `getValueFromConstrainDOMString`: a `String` wrapper object gives its
   * text, an array gives `String` of its first element, a plain object gives
   * `exact` when truthy and otherwise `ideal` when truthy; everything else,
   * including a primitive string (which is not `instanceof String`), gives
   * `null`. `Array(x).length > 0` holds for every `x`, so an empty array gives
   * `String(undefined)`.
   */
  function ValueFromConstrainDomString(c: JsValue): (r: JsValue)
    ensures r.Str? || r.Null?
    ensures !Truthy(c) ==> r == Null
    ensures c.Str? || c.Bool? || c.Num? ==> r == Null
    ensures c.StrObject? ==> r == Str(c.s)
    ensures c.Arr? && |c.elems| > 0 ==> r == Str(ToJsString(c.elems[0]))
    ensures c.Arr? && |c.elems| == 0 ==> r == Str("undefined")
    ensures c.Obj? && Truthy(Field(c, "exact")) ==> r == Str(ToJsString(Field(c, "exact")))
    ensures c.Obj? && !Truthy(Field(c, "exact")) && Truthy(Field(c, "ideal")) ==> r == Str(ToJsString(Field(c, "ideal")))
    ensures c.Obj? && !Truthy(Field(c, "exact")) && !Truthy(Field(c, "ideal")) ==> r == Null
  {
    if !Truthy(c) then Null
    else match c
      case StrObject(s) => Str(s)
      case Arr(es) => Str(ToJsString(if |es| > 0 then es[0] else Undefined))
      case Obj(_) =>
        if Truthy(Field(c, "exact")) then Str(ToJsString(Field(c, "exact")))
        else if Truthy(Field(c, "ideal")) then Str(ToJsString(Field(c, "ideal")))
        else Null
      case _ => Null
  }

  /** JavaScript truthiness of a device id that is a string or `null`. */
  predicate DeviceIdTruthy(deviceId: Option<string>) {
    deviceId.Some? && Truthy(Str(deviceId.value))
  }

  /** The constraint `{exact: deviceId}` that pins a request to one device. */
  function ExactDeviceId(id: string): JsValue {
    Obj(map["exact" := Str(id)])
  }

  /**
   * The fields of a constraints object after the device id is merged in:
   * `deviceId` becomes `{exact: id}` exactly when the id is truthy, and every
   * other field keeps its value.
   */
  function MergeDeviceId(deviceId: Option<string>, fields: map<string, JsValue>): (r: map<string, JsValue>)
    ensures DeviceIdTruthy(deviceId) ==> r.Keys == fields.Keys + {"deviceId"} && r["deviceId"] == ExactDeviceId(deviceId.value)
    ensures !DeviceIdTruthy(deviceId) ==> r == fields
    ensures forall k :: k in fields && k != "deviceId" ==> k in r && r[k] == fields[k]
  {
    if DeviceIdTruthy(deviceId) then fields["deviceId" := ExactDeviceId(deviceId.value)] else fields
  }

  /**
   * `getMediaConstraintsForDevice`: the base object itself, or the shared
   * defaults when there is no base, with the device id written into it in place.
   */
  method GetMediaConstraintsForDevice(deviceId: Option<string>, base: MediaTrackConstraints?, defaults: MediaTrackConstraints)
    returns (r: MediaTrackConstraints)
    modifies if base != null then base else defaults
    ensures r == if base != null then base else defaults
    ensures r.fields == MergeDeviceId(deviceId, old(r.fields))
  {
    r := if base != null then base else defaults;
    if DeviceIdTruthy(deviceId) {
      r.fields := r.fields["deviceId" := ExactDeviceId(deviceId.value)];
    }
  }

  /** Merging keeps the shared defaults' facing mode, whatever device id is merged in. */
  lemma MergeKeepsDefaults(deviceId: Option<string>, fields: map<string, JsValue>)
    requires DefaultsIntact(fields)
    ensures DefaultsIntact(MergeDeviceId(deviceId, fields))
  {
  }

  /** The device id written by the merge is read back unchanged by `getValueFromConstrainDOMString`. */
  lemma ExactDeviceIdRoundTrip(id: string)
    requires id != ""
    ensures ValueFromConstrainDomString(ExactDeviceId(id)) == Str(id)
  {
  }

  /** Every constraint form a browser may report for a non-empty id yields that id, except a primitive string. */
  lemma ConstrainDomStringForms(id: string)
    requires id != ""
    ensures ValueFromConstrainDomString(StrObject(id)) == Str(id)
    ensures ValueFromConstrainDomString(Arr([Str(id)])) == Str(id)
    ensures ValueFromConstrainDomString(Obj(map["ideal" := Str(id)])) == Str(id)
    ensures ValueFromConstrainDomString(Str(id)) == Null
  {
  }
}
