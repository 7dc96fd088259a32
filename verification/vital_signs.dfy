/**
 * The vital-sign classifier: normal bands per kind of reading, the
 * three-way status a reading gets, and the colour each status is drawn in.
 * Readings are real numbers; the `Number(...)` parsing that produces them
 * (and its NaN case) is not part of this model.
 */
module VitalSigns {

  /** The five kinds of reading that have a normal band. */
  datatype VitalKind = TasSistolica | TadDiastolica | Fc | SatO2 | Eva

  datatype Status = Normal | Warning | Danger

  /** A closed normal band `[min, max]` and the unit it is measured in. */
  datatype Range = Range(min: real, max: real, unit: string)

  /** The normal band of each kind of reading. */
  function VitalRange(k: VitalKind): (r: Range)
    ensures r.min < r.max
  {
    match k
    case TasSistolica => Range(90.0, 140.0, "mmHg")
    case TadDiastolica => Range(60.0, 90.0, "mmHg")
    case Fc => Range(60.0, 100.0, "lpm")
    case SatO2 => Range(95.0, 100.0, "%")
    case Eva => Range(0.0, 10.0, "puntos")
  }

  predicate InRange(value: real, k: VitalKind)
  {
    VitalRange(k).min <= value <= VitalRange(k).max
  }

  /** The far-out-of-band test that turns an out-of-band reading into a danger. */
  predicate FarOut(value: real, k: VitalKind)
  {
    match k
    case TasSistolica => value < 80.0 || value > 160.0
    case TadDiastolica => value < 50.0 || value > 100.0
    case Fc => value < 50.0 || value > 120.0
    case SatO2 => value < 90.0
    case Eva => value > 7.0
  }

  /**
   * Classifies a reading: normal inside its band; outside it, danger when
   * the reading is far out, and warning otherwise.
   */
  function Validate(value: real, k: VitalKind): (s: Status)
    ensures s == Normal <==> InRange(value, k)
    ensures s == Danger <==> !InRange(value, k) && FarOut(value, k)
    ensures s == Warning <==> !InRange(value, k) && !FarOut(value, k)
  {
    var range := VitalRange(k);
    if value < range.min || value > range.max then
      if k == TasSistolica && (value < 80.0 || value > 160.0) then Danger
      else if k == TadDiastolica && (value < 50.0 || value > 100.0) then Danger
      else if k == Fc && (value < 50.0 || value > 120.0) then Danger
      else if k == SatO2 && value < 90.0 then Danger
      else if k == Eva && value > 7.0 then Danger
      else Warning
    else Normal
  }

  /** Systolic pressure: normal in [90,140], danger below 80 or above 160, warning between. */
  lemma SystolicBands(v: real)
    ensures 90.0 <= v <= 140.0 ==> Validate(v, TasSistolica) == Normal
    ensures (v < 80.0 || v > 160.0) ==> Validate(v, TasSistolica) == Danger
    ensures (80.0 <= v < 90.0 || 140.0 < v <= 160.0) ==> Validate(v, TasSistolica) == Warning
  {
  }

  /** Diastolic pressure: normal in [60,90], danger below 50 or above 100, warning between. */
  lemma DiastolicBands(v: real)
    ensures 60.0 <= v <= 90.0 ==> Validate(v, TadDiastolica) == Normal
    ensures (v < 50.0 || v > 100.0) ==> Validate(v, TadDiastolica) == Danger
    ensures (50.0 <= v < 60.0 || 90.0 < v <= 100.0) ==> Validate(v, TadDiastolica) == Warning
  {
  }

  /** Heart rate: normal in [60,100], danger below 50 or above 120, warning between. */
  lemma HeartRateBands(v: real)
    ensures 60.0 <= v <= 100.0 ==> Validate(v, Fc) == Normal
    ensures (v < 50.0 || v > 120.0) ==> Validate(v, Fc) == Danger
    ensures (50.0 <= v < 60.0 || 100.0 < v <= 120.0) ==> Validate(v, Fc) == Warning
  {
  }

  /** Oxygen saturation: danger only below 90; 90 to 95 and anything above 100 are warnings. */
  lemma SaturationBands(v: real)
    ensures 95.0 <= v <= 100.0 ==> Validate(v, SatO2) == Normal
    ensures v < 90.0 ==> Validate(v, SatO2) == Danger
    ensures (90.0 <= v < 95.0 || v > 100.0) ==> Validate(v, SatO2) == Warning
    ensures Validate(v, SatO2) == Danger ==> v < 90.0
  {
  }

  /**
   * Pain scale: the `> 7` rule is only reached out of band, so an in-band 8
   * to 10 is normal, anything above 10 is danger and anything below 0 a warning.
   */
  lemma PainScaleBands(v: real)
    ensures 0.0 <= v <= 10.0 ==> Validate(v, Eva) == Normal
    ensures v > 10.0 ==> Validate(v, Eva) == Danger
    ensures v < 0.0 ==> Validate(v, Eva) == Warning
  {
  }

  /** The colour a status is drawn in. */
  function ValidationColor(s: Status): (c: string)
    ensures |c| == 7 && c[0] == '#'
  {
    match s
    case Normal => "#27ae60"
    case Warning => "#f39c12"
    case Danger => "#e74c3c"
  }

  /** The three statuses are told apart by colour. */
  lemma ColorsDistinct(s: Status, t: Status)
    ensures ValidationColor(s) == ValidationColor(t) <==> s == t
  {
  }
}
