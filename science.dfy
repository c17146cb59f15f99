/** The Hargreaves ETo calculator (src/nwa_hydro/tools/science.py): FAO
    Irrigation and Drainage Paper 56 (Allen et al., 1998), equations 21
    (extraterrestrial radiation), 23 (inverse relative Earth-Sun distance),
    24 (solar declination), 25 (sunset hour angle) and 52 (Hargreaves ETo),
    written as the code writes them.

    The trigonometric functions and the square root are parameters: a
    `Maths` value whose only known laws are the ones `Lawful` states. `acos`
    and `sqrt` are partial, defined on [-1, 1] and on the non-negative reals,
    so the clamp before `acos` and the floor on the temperature range are
    what make every call well-defined. Reals stand for Python floats. */
module Science {
  import opened Wrappers
  import opened Schemas
  import opened Calendar

  /** Solar constant, MJ m-2 min-1. */
  const GSC: real := 0.0820

  /** `math.pi` */
  const PI: real := 3.141592653589793

  const METHOD_TAG: string := "Hargreaves (Native)"

  datatype Maths = Maths(
    sin: real -> real,
    cos: real -> real,
    tan: real -> real,
    acos: real --> real,
    sqrt: real --> real)

  /** The only facts the model assumes of the library functions: their
      domains, the range of sine and cosine, and three exact values. */
  ghost predicate Lawful(m: Maths)
  {
    && (forall x: real :: -1.0 <= x <= 1.0 ==> m.acos.requires(x))
    && (forall x: real :: 0.0 <= x ==> m.sqrt.requires(x) && 0.0 <= m.sqrt(x))
    && (forall x: real :: -1.0 <= m.sin(x) <= 1.0 && -1.0 <= m.cos(x) <= 1.0)
    && m.sqrt.requires(0.0) && m.sqrt(0.0) == 0.0
    && m.acos.requires(1.0) && m.acos(1.0) == 0.0
    && m.sin(0.0) == 0.0
  }

  /** The reasons the calculator raises ValueError. */
  datatype EtoError = TmaxBelowTmin | InvalidDate

  function Distance(a: real, b: real): real
  {
    if a < b then b - a else a - b
  }

  /** `min(1.0, max(-1.0, x))`: the point of [-1, 1] nearest to x. */
  function ClampUnit(x: real): (r: real)
    ensures -1.0 <= r <= 1.0
    ensures forall y :: -1.0 <= y <= 1.0 ==> Distance(r, x) <= Distance(y, x)
  {
    var lower := if -1.0 < x then x else -1.0;
    if 1.0 < lower then 1.0 else lower
  }

  /** `math.radians`: keeps the sign, and takes a latitude in [-90, 90]
      into [-π/2, π/2]. */
  function Radians(degrees: real): (r: real)
    ensures r < 0.0 <==> degrees < 0.0
    ensures -90.0 <= degrees <= 90.0 ==> -PI / 2.0 <= r <= PI / 2.0
  {
    degrees * (PI / 180.0)
  }

  /** FAO-56 Eq. 23: the Earth-Sun distance factor varies by 3.3% around 1. */
  function InverseRelativeDistance(m: Maths, dayOfYear: int): (r: real)
    requires Lawful(m)
    ensures 0.967 <= r <= 1.033
  {
    1.0 + 0.033 * m.cos((2.0 * PI / 365.0) * dayOfYear as real)
  }

  /** FAO-56 Eq. 24: the declination never exceeds 0.409 rad (23.4°) either way. */
  function SolarDeclination(m: Maths, dayOfYear: int): (r: real)
    requires Lawful(m)
    ensures -0.409 <= r <= 0.409
  {
    0.409 * m.sin((2.0 * PI / 365.0) * dayOfYear as real - 1.39)
  }

  /** FAO-56 Eq. 25 with the argument clamped: where `-tan φ · tan δ`
      leaves [-1, 1] (polar night above, midnight sun below) the angle is
      that of the nearest bound, and elsewhere the clamp changes nothing. */
  function SunsetHourAngle(m: Maths, latRad: real, declination: real): (r: real)
    requires Lawful(m)
    ensures var t := -m.tan(latRad) * m.tan(declination);
            (-1.0 <= t <= 1.0 ==> r == m.acos(t)) &&
            (1.0 < t ==> r == m.acos(1.0)) &&
            (t < -1.0 ==> r == m.acos(-1.0)) &&
            (1.0 <= t ==> r == 0.0)
  {
    var t := ClampUnit(-m.tan(latRad) * m.tan(declination));
    m.acos(t)
  }

  /** FAO-56 Eq. 21, in MJ m-2 day-1. In polar night, where the clamp
      pins the sunset hour angle to acos(1) = 0, no radiation arrives. */
  function ExtraterrestrialRadiation(m: Maths, latRad: real, dayOfYear: int): (r: real)
    requires Lawful(m)
    ensures 1.0 <= -m.tan(latRad) * m.tan(SolarDeclination(m, dayOfYear)) ==> r == 0.0
  {
    var dr := InverseRelativeDistance(m, dayOfYear);
    var declination := SolarDeclination(m, dayOfYear);
    var omega := SunsetHourAngle(m, latRad, declination);
    var sunlit := omega * m.sin(latRad) * m.sin(declination) + m.cos(latRad) * m.cos(declination) * m.sin(omega);
    assert omega == 0.0 ==> sunlit == 0.0;
    (24.0 * 60.0 / PI) * GSC * dr * sunlit
  }

  /** `max(tmax - tmin, 0.0)`: never negative, the plain range otherwise. */
  function DeltaT(tmax: real, tmin: real): (r: real)
    ensures 0.0 <= r
    ensures tmin <= tmax ==> r == tmax - tmin
    ensures tmax <= tmin ==> r == 0.0
  {
    if tmax - tmin > 0.0 then tmax - tmin else 0.0
  }

  /** Eq. 52 as the code writes it: Ra enters in MJ m-2 day-1. No range
      gives no evaporation; otherwise the sign is that of (tmean + 17.8) · Ra,
      with no clamp at zero. */
  function HargreavesEto(m: Maths, tmean: real, deltaT: real, ra: real): (r: real)
    requires Lawful(m) && 0.0 <= deltaT
    ensures deltaT == 0.0 ==> r == 0.0
    ensures -17.8 <= tmean && 0.0 <= ra ==> 0.0 <= r
    ensures tmean < -17.8 && 0.0 < ra && 0.0 < m.sqrt(deltaT) ==> r < 0.0
  {
    0.0023 * (tmean + 17.8) * m.sqrt(deltaT) * ra
  }

  /** `calculate_hargreaves_eto`: rejects tmax < tmin, then a date strptime
      refuses; otherwise the ETo of the record's day and latitude, tagged with
      the method and carrying the record unchanged. */
  function CalculateHargreavesEto(m: Maths, climate: ClimateData): (r: Result<EToResult, EtoError>)
    requires Lawful(m)
    ensures r == Err(TmaxBelowTmin) <==> climate.tmax < climate.tmin
    ensures r == Err(InvalidDate) <==> climate.tmin <= climate.tmax && ParseDate(climate.date).None?
    ensures r.Ok? ==> r.value.date == climate.date && r.value.methodName == METHOD_TAG &&
                      r.value.inputData == climate
    ensures r.Ok? && climate.tmax == climate.tmin ==> r.value.eto == 0.0
  {
    if climate.tmax < climate.tmin then
      Err(TmaxBelowTmin)
    else
      match ParseDate(climate.date)
      case None => Err(InvalidDate)
      case Some(day) =>
        var ra := ExtraterrestrialRadiation(m, Radians(climate.lat), DayOfYear(day));
        var eto := HargreavesEto(m, climate.tmean, DeltaT(climate.tmax, climate.tmin), ra);
        Ok(EToResult(climate.date, eto, METHOD_TAG, climate))
  }

  // ---------------------------------------------------------------------
  // Properties

  /** FAO-56 Eq. 52 as the paper states it, with Ra converted to its
      evaporation equivalent in mm/day by the factor 0.408 (Eq. 20). */
  function FaoEq52(m: Maths, tmean: real, tmax: real, tmin: real, raMegajoules: real): real
    requires Lawful(m) && tmin <= tmax
  {
    0.0023 * (tmean + 17.8) * m.sqrt(tmax - tmin) * (0.408 * raMegajoules)
  }

  /** The calculator omits the 0.408 conversion: its value is exactly the
      paper's Eq. 52 divided by 0.408, about 2.45 times as large. */
  lemma EtoOmitsRadiationConversion(m: Maths, climate: ClimateData)
    requires Lawful(m)
    requires CalculateHargreavesEto(m, climate).Ok?
    ensures var day := ParseDate(climate.date).value;
            var ra := ExtraterrestrialRadiation(m, Radians(climate.lat), DayOfYear(day));
            0.408 * CalculateHargreavesEto(m, climate).value.eto == FaoEq52(m, climate.tmean, climate.tmax, climate.tmin, ra)
  {
  }

  /** Equal extremes give exactly zero ETo, whatever the day and latitude. */
  lemma EqualTemperaturesGiveZero(m: Maths, climate: ClimateData)
    requires Lawful(m)
    requires climate.tmax == climate.tmin && ParseDate(climate.date).Some?
    ensures CalculateHargreavesEto(m, climate).Ok? && CalculateHargreavesEto(m, climate).value.eto == 0.0
  {
  }

  /** After validation the floor on ΔT never changes the range. */
  lemma FloorInactiveAfterValidation(m: Maths, climate: ClimateData)
    requires Lawful(m)
    requires CalculateHargreavesEto(m, climate).Ok?
    ensures DeltaT(climate.tmax, climate.tmin) == climate.tmax - climate.tmin
  {
  }

  /** The ETo depends on the date, the three temperatures and the latitude
      only: source, precipitation and humidity play no part. */
  lemma EtoUsesTemperaturesDateAndLatitude(m: Maths, a: ClimateData, b: ClimateData)
    requires Lawful(m)
    requires a.date == b.date && a.tmin == b.tmin && a.tmax == b.tmax && a.tmean == b.tmean && a.lat == b.lat
    ensures CalculateHargreavesEto(m, a).Ok? <==> CalculateHargreavesEto(m, b).Ok?
    ensures CalculateHargreavesEto(m, a).Ok? ==>
              CalculateHargreavesEto(m, a).value.eto == CalculateHargreavesEto(m, b).value.eto
  {
  }

  /** The ETo is not clamped at zero: whenever the square-root factor and Ra
      are positive, a mean below -17.8 °C gives a negative value. */
  lemma EtoNotClampedAtZero(m: Maths, climate: ClimateData)
    requires Lawful(m)
    requires CalculateHargreavesEto(m, climate).Ok?
    requires climate.tmean < -17.8
    requires 0.0 < m.sqrt(climate.tmax - climate.tmin)
    requires 0.0 < ExtraterrestrialRadiation(m, Radians(climate.lat), DayOfYear(ParseDate(climate.date).value))
    ensures CalculateHargreavesEto(m, climate).value.eto < 0.0
  {
  }
}
