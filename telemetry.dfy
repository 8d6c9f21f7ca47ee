/** Telemetry samples: a required timestamp and optional instrument readings. */
module Telemetry {
  import opened Wrappers

  /** Timestamps are integer milliseconds; `moment` arithmetic in seconds becomes +/- 1000 per second. */
  type Time = int

  const MsPerSecond: int := 1000

  /** One observation. A field that is `None` is a key the sample object does not have. */
  datatype Sample = Sample(
    t: Time,
    twa: Option<real>,
    tws: Option<real>,
    twd: Option<real>,
    speed: Option<real>,
    vmg: Option<real>,
    hdg: Option<real>,
    rot: Option<real>,
    lon: Option<real>,
    lat: Option<real>,
    ot: Option<real>,
    targetSpeed: Option<real>,
    targetAngle: Option<real>)

  /** The optional fields by name, so that "the present values of field f" is one definition. */
  datatype Field = Twa | Tws | Twd | Speed | Vmg | Hdg | Rot | Lon | Lat | Ot | TargetSpeed | TargetAngle

  function Get(s: Sample, f: Field): Option<real>
  {
    match f
    case Twa => s.twa
    case Tws => s.tws
    case Twd => s.twd
    case Speed => s.speed
    case Vmg => s.vmg
    case Hdg => s.hdg
    case Rot => s.rot
    case Lon => s.lon
    case Lat => s.lat
    case Ot => s.ot
    case TargetSpeed => s.targetSpeed
    case TargetAngle => s.targetAngle
  }

  /** A sample carrying only its timestamp. */
  function Blank(t: Time): Sample
  {
    Sample(t, None, None, None, None, None, None, None, None, None, None, None, None)
  }

  function Abs(x: real): real
  {
    if x < 0.0 then -x else x
  }

  /** The global input precondition: timestamps never decrease. */
  predicate Sorted(data: seq<Sample>)
  {
    forall i, j :: 0 <= i < j < |data| ==> data[i].t <= data[j].t
  }

  /** Timestamps strictly increase (no two samples share a timestamp). */
  predicate StrictlySorted(data: seq<Sample>)
  {
    forall i, j :: 0 <= i < j < |data| ==> data[i].t < data[j].t
  }

  function AsSeq(o: Option<real>): seq<real>
  {
    if o.Some? then [o.value] else []
  }

  /** The values of field `f`, in order, of the samples that have it: what a loop guarded by
      `'f' in data[j]` feeds to an accumulator. */
  function Present(data: seq<Sample>, f: Field): (vs: seq<real>)
    ensures |vs| <= |data|
  {
    if |data| == 0 then [] else Present(data[..|data| - 1], f) + AsSeq(Get(data[|data| - 1], f))
  }

  lemma PresentStep(data: seq<Sample>, j: nat, f: Field)
    requires j < |data|
    ensures Present(data[..j + 1], f) == Present(data[..j], f) + AsSeq(Get(data[j], f))
  {
    assert data[..j + 1][..j] == data[..j];
  }

  lemma PresentAppend(data: seq<Sample>, s: Sample, f: Field)
    ensures Present(data + [s], f) == Present(data, f) + AsSeq(Get(s, f))
  {
    assert (data + [s])[..|data|] == data;
  }

  /** Nothing is present exactly when no sample has the field. */
  lemma {:induction false} PresentEmpty(data: seq<Sample>, f: Field)
    ensures Present(data, f) == [] <==> forall k :: 0 <= k < |data| ==> Get(data[k], f).None?
  {
    if |data| > 0 {
      var p := data[..|data| - 1];
      PresentEmpty(p, f);
      assert forall k :: 0 <= k < |p| ==> p[k] == data[k];
    }
  }

  /** Every present value is the value of some sample that has the field, so bounds on the
      samples' values carry over to the present values; absent fields contribute nothing. */
  lemma {:induction false} PresentWithin(data: seq<Sample>, f: Field, lo: real, hi: real)
    requires forall k :: 0 <= k < |data| && Get(data[k], f).Some? ==> lo <= Get(data[k], f).value <= hi
    ensures forall i :: 0 <= i < |Present(data, f)| ==> lo <= Present(data, f)[i] <= hi
  {
    if |data| > 0 {
      var p := data[..|data| - 1];
      assert forall k :: 0 <= k < |p| ==> p[k] == data[k];
      PresentWithin(p, f, lo, hi);
    }
  }
}
