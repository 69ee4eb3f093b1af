/**
 * The three practice areas every score is reported in (pitch accuracy, scale
 * conformity, timing stability) and the "weakest area" rule shared by the
 * live coach, the chat coach and the evaluation datasets: Python's
 * `min(metrics, key=metrics.get)` over a dict built in the order pitch,
 * scale, timing, which keeps the first of several equal minima.
 */
module MetricAreas {

  datatype Area = Pitch | Scale | Timing

  /** The dict key each area is stored under. */
  function AreaName(a: Area): string {
    match a
    case Pitch => "pitch"
    case Scale => "scale"
    case Timing => "timing"
  }

  /** The position of an area in the metrics dict. */
  function Rank(a: Area): nat {
    match a
    case Pitch => 0
    case Scale => 1
    case Timing => 2
  }

  /** The area's value among the three. */
  function ValueOf(a: Area, pitch: real, scale: real, timing: real): real {
    match a
    case Pitch => pitch
    case Scale => scale
    case Timing => timing
  }

  /** Python's `min` with a key: a strictly smaller value replaces the running minimum. */
  function WeakestArea(pitch: real, scale: real, timing: real): (a: Area)
    ensures forall b: Area :: ValueOf(a, pitch, scale, timing) <= ValueOf(b, pitch, scale, timing)
    ensures forall b: Area :: Rank(b) < Rank(a) ==> ValueOf(b, pitch, scale, timing) > ValueOf(a, pitch, scale, timing)
  {
    var first := Pitch;
    var afterScale := if scale < ValueOf(first, pitch, scale, timing) then Scale else first;
    if timing < ValueOf(afterScale, pitch, scale, timing) then Timing else afterScale
  }

  /** The weakest area is the only area that has the least value and no earlier area with that value. */
  lemma WeakestAreaUnique(pitch: real, scale: real, timing: real, b: Area)
    requires forall c: Area :: ValueOf(b, pitch, scale, timing) <= ValueOf(c, pitch, scale, timing)
    requires forall c: Area :: Rank(c) < Rank(b) ==> ValueOf(c, pitch, scale, timing) > ValueOf(b, pitch, scale, timing)
    ensures WeakestArea(pitch, scale, timing) == b
  {
    var a := WeakestArea(pitch, scale, timing);
    assert ValueOf(a, pitch, scale, timing) == ValueOf(b, pitch, scale, timing);
    assert Rank(a) == Rank(b);
  }

  /** Pitch is the weakest area exactly when no other area is lower: ties go to pitch. */
  lemma TiesFavourPitch(pitch: real, scale: real, timing: real)
    ensures WeakestArea(pitch, scale, timing) == Pitch <==> pitch <= scale && pitch <= timing
  {
  }
}
