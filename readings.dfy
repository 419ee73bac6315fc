/**
 * Normalisation of one wearable reading (index.js:149-168, and the same axis
 * normalisation repeated by the readings route, index.js:213-215).
 *
 * The heart rate is absent when it is undefined, null, or when `Number(...)`
 * makes NaN of it. An acceleration axis is kept exactly when its value has
 * JavaScript type 'number'; that includes NaN and the infinities, which the
 * fall rule then handles by the rules of JsNumber.
 */
module Readings {
  import opened Wrappers
  import opened JsNumber

  /** A JavaScript value as far as `typeof v === 'number'` can tell. */
  datatype JsValue = Undefined | Null | Bool(b: bool) | Num(n: Number) | Str(s: string) | Object

  /**
   * The heart rate as received: undefined, null, or any other value, carried
   * as what `Number(heart_rate)` makes of it.
   */
  datatype RawHeartRate = HrUndefined | HrNull | HrCoerced(n: Number)

  /**
   * The acceleration argument. `NoAccel` stands for every falsy value and for
   * undefined (whose default `{}` has no fields); a truthy non-object has no
   * x, y or z and is `Accel(Undefined, Undefined, Undefined)`.
   */
  datatype RawAccel = NoAccel | Accel(x: JsValue, y: JsValue, z: JsValue)

  /** The normalised reading: each field independently present or absent. */
  datatype Sample = Sample(heartRate: Option<Number>, ax: Option<Number>, ay: Option<Number>, az: Option<Number>)

  function NormalizeHeartRate(raw: RawHeartRate): (hr: Option<Number>)
    ensures hr.None? <==> raw.HrUndefined? || raw.HrNull? || raw.n.NaN?
    ensures hr.Some? ==> raw.HrCoerced? && hr.value == raw.n && !hr.value.NaN?
  {
    match raw
    case HrUndefined => None
    case HrNull => None
    case HrCoerced(n) => if n.NaN? then None else Some(n)
  }

  function NormalizeAxis(v: JsValue): (a: Option<Number>)
    ensures a.Some? <==> v.Num?
    ensures a.Some? ==> a.value == v.n
  {
    if v.Num? then Some(v.n) else None
  }

  /** The three axes, each normalised on its own. */
  function NormalizeAccel(accel: RawAccel): (axes: (Option<Number>, Option<Number>, Option<Number>))
    ensures axes.0.Some? <==> accel.Accel? && accel.x.Num?
    ensures axes.1.Some? <==> accel.Accel? && accel.y.Num?
    ensures axes.2.Some? <==> accel.Accel? && accel.z.Num?
  {
    match accel
    case NoAccel => (None, None, None)
    case Accel(x, y, z) => (NormalizeAxis(x), NormalizeAxis(y), NormalizeAxis(z))
  }

  function Normalize(hr: RawHeartRate, accel: RawAccel): (s: Sample)
    ensures s.heartRate == NormalizeHeartRate(hr)
    ensures accel.NoAccel? ==> s.ax.None? && s.ay.None? && s.az.None?
    ensures accel.Accel? ==> s.ax == NormalizeAxis(accel.x) && s.ay == NormalizeAxis(accel.y) && s.az == NormalizeAxis(accel.z)
  {
    var (ax, ay, az) := NormalizeAccel(accel);
    Sample(NormalizeHeartRate(hr), ax, ay, az)
  }

  /** A normalised axis as the route passes it on: the number, or null. */
  function Denormalize(a: Option<Number>): (v: JsValue)
    ensures NormalizeAxis(v) == a
  {
    match a
    case Some(n) => Num(n)
    case None => Null
  }

  /** The object `{ x: ax, y: ay, z: az }` the readings route builds (index.js:228). */
  function RouteAccel(accel: RawAccel): (routed: RawAccel)
    ensures routed.Accel?
    ensures NormalizeAccel(routed) == NormalizeAccel(accel)
  {
    var (ax, ay, az) := NormalizeAccel(accel);
    Accel(Denormalize(ax), Denormalize(ay), Denormalize(az))
  }

  /**
   * Normalising twice is normalising once: the route normalises the axes and
   * checkForEmergency normalises the object it is given again.
   */
  lemma RouteNormalizeAgrees(hr: RawHeartRate, accel: RawAccel)
    ensures Normalize(hr, RouteAccel(accel)) == Normalize(hr, accel)
  {
  }
}
