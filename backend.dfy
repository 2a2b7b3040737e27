/** The Flask stub behind `/solar` (backend/app.py): a synthetic irradiation
    profile of twelve equal months scaled by a latitude attenuation, the
    nearest of six fixed coastal points, and the handler that checks the
    query parameters and assembles the response.

    The trigonometry is not modelled: `cosPow(t)` stands for
    `cos(radians(t)) ** 1.5` at the absolute latitude t, and `dist` for the
    haversine distance in km between two (lat, lon) points. Python's
    `float(s)` is the parameter `parseFloat`, whose `None` is the
    `ValueError` it raises. */
module Backend {
  import opened Common

  // ---------------------------------------------------------------------
  // Synthetic irradiation profile
  // ---------------------------------------------------------------------

  /** Annual irradiation, in kWh/m², at full (unattenuated) sunshine. */
  const Base: real := 1000.0

  /** The attenuation never drops below this floor. */
  const AttenuationFloor: real := 0.2

  function Abs(x: real): (a: real)
    ensures a >= 0.0 && (a == x || a == -x)
  {
    if x < 0.0 then -x else x
  }

  /** `max(0.2, cos(radians(abs(lat))) ** 1.5)`: Python's `max` keeps its
      first argument unless the second is strictly larger. */
  function Attenuation(cosPow: real -> real, lat: real): (a: real)
    ensures a >= AttenuationFloor && a >= cosPow(Abs(lat))
    ensures a == AttenuationFloor || a == cosPow(Abs(lat))
  {
    var c := cosPow(Abs(lat));
    if c > AttenuationFloor then c else AttenuationFloor
  }

  /** The pair `calculate_solar_irradiation` returns: the annual total and
      the twelve monthly values. */
  datatype Profile = Profile(totalAnnual: real, monthly: seq<real>)

  function IrradiationProfile(cosPow: real -> real, lat: real): (p: Profile)
    ensures |p.monthly| == 12
    ensures forall i :: 0 <= i < 12 ==> p.monthly[i] == Base * Attenuation(cosPow, lat) / 12.0
    ensures p.totalAnnual == Sum(p.monthly)
  {
    var monthly := seq(12, _ => Base * Attenuation(cosPow, lat) / 12.0);
    Profile(Sum(monthly), monthly)
  }

  /** The annual total is the base scaled by the attenuation, so never below 200. */
  lemma TotalIsAttenuatedBase(cosPow: real -> real, lat: real)
    ensures IrradiationProfile(cosPow, lat).totalAnnual == Base * Attenuation(cosPow, lat)
    ensures IrradiationProfile(cosPow, lat).totalAnnual >= Base * AttenuationFloor
  {
    var p := IrradiationProfile(cosPow, lat);
    SumConstant(p.monthly, Base * Attenuation(cosPow, lat) / 12.0);
  }

  /** The handler's averages over the flat profile: the monthly average is
      the value of every month, and the daily average is that value spread
      over 365/12 days, never below 200/365. */
  lemma AveragesOfFlatProfile(cosPow: real -> real, lat: real)
    ensures var p := IrradiationProfile(cosPow, lat);
      && (forall i :: 0 <= i < 12 ==> p.monthly[i] == p.totalAnnual / 12.0)
      && p.totalAnnual / 365.0 == 12.0 * p.monthly[0] / 365.0
      && p.totalAnnual / 365.0 >= Base * AttenuationFloor / 365.0
  {
    TotalIsAttenuatedBase(cosPow, lat);
  }

  /** The profile depends on the latitude only through its absolute value:
      both hemispheres see the same figures. */
  lemma ProfileSymmetric(cosPow: real -> real, lat: real)
    ensures IrradiationProfile(cosPow, lat) == IrradiationProfile(cosPow, -lat)
  {
    assert Abs(lat) == Abs(-lat);
    assert Attenuation(cosPow, lat) == Attenuation(cosPow, -lat);
  }

  // ---------------------------------------------------------------------
  // Distance to the coast
  // ---------------------------------------------------------------------

  datatype Point = Point(lat: real, lon: real)

  /** Ecuador, Pacific coast of Ecuador, the Netherlands, Chile, Los Angeles, Namibia. */
  const CoastPoints: seq<Point> := [
    Point(0.0, 0.0), Point(0.0, -78.5), Point(52.0, 4.0),
    Point(-24.5, -70.0), Point(33.0, -118.0), Point(-29.0, 17.0)]

  function Distances(dist: (real, real, real, real) -> real, lat: real, lon: real, points: seq<Point>): (ds: seq<real>)
    ensures |ds| == |points|
    ensures forall i :: 0 <= i < |points| ==> ds[i] == dist(lat, lon, points[i].lat, points[i].lon)
  {
    seq(|points|, i requires 0 <= i < |points| => dist(lat, lon, points[i].lat, points[i].lon))
  }

  /** Python's `min` over a non-empty list: a scan that replaces the current
      value only by a strictly smaller one. The result is one of the elements
      and no element is smaller. */
  function Minimum(xs: seq<real>): (m: real)
    requires |xs| > 0
    ensures m in xs
    ensures forall i :: 0 <= i < |xs| ==> m <= xs[i]
  {
    if |xs| == 1 then xs[0]
    else
      var rest := Minimum(xs[..|xs| - 1]);
      if xs[|xs| - 1] < rest then xs[|xs| - 1] else rest
  }

  /** `round(min(distances), 2)`: the distance to the nearest of the six
      points, rounded to two decimals half-to-even. */
  function DistanceToCoast(dist: (real, real, real, real) -> real, lat: real, lon: real): (d: real)
    ensures exists k ::
      && 0 <= k < |CoastPoints|
      && d == RoundHalfEven(dist(lat, lon, CoastPoints[k].lat, CoastPoints[k].lon), 2)
      && forall i :: 0 <= i < |CoastPoints| ==>
           dist(lat, lon, CoastPoints[k].lat, CoastPoints[k].lon)
             <= dist(lat, lon, CoastPoints[i].lat, CoastPoints[i].lon)
  {
    var ds := Distances(dist, lat, lon, CoastPoints);
    var m := Minimum(ds);
    assert exists k :: 0 <= k < |ds| && ds[k] == m;
    RoundHalfEven(m, 2)
  }

  /** The reported distance is within half a hundredth of every point's
      distance or below it: no coastal point is nearer than the rounding allows. */
  lemma CoastDistanceBound(dist: (real, real, real, real) -> real, lat: real, lon: real, i: nat)
    requires i < |CoastPoints|
    ensures DistanceToCoast(dist, lat, lon) <= dist(lat, lon, CoastPoints[i].lat, CoastPoints[i].lon) + 0.005
  {
    var d := DistanceToCoast(dist, lat, lon);
    var k :|
      && 0 <= k < |CoastPoints|
      && d == RoundHalfEven(dist(lat, lon, CoastPoints[k].lat, CoastPoints[k].lon), 2)
      && forall j :: 0 <= j < |CoastPoints| ==>
           dist(lat, lon, CoastPoints[k].lat, CoastPoints[k].lon)
             <= dist(lat, lon, CoastPoints[j].lat, CoastPoints[j].lon);
    assert 1.0 / (2.0 * Scale(2)) == 0.005;
  }

  // ---------------------------------------------------------------------
  // The /solar handler
  // ---------------------------------------------------------------------

  /** The `data` object of a successful response. */
  datatype SolarData = SolarData(
    latitude: real,
    longitude: real,
    annualIrradiation: real,
    averageMonthly: real,
    averageDaily: real,
    monthlyValues: seq<real>,
    distanceToCoastKm: real)

  /** A 200 response with data, a 400 for missing parameters, or a 500
      carrying the text of the exception. */
  datatype Response = Ok(data: SolarData) | BadRequest(error: string) | ServerError(error: string)

  function Status(r: Response): (code: nat)
    ensures code == 200 <==> r.Ok?
    ensures code == 400 <==> r.BadRequest?
    ensures code == 500 <==> r.ServerError?
  {
    match r
    case Ok(_) => 200
    case BadRequest(_) => 400
    case ServerError(_) => 500
  }

  const MissingParameters: string := "Parámetros lat y lon son requeridos"

  /** The text of the `ValueError` that `float(s)` raises. */
  function ConversionError(s: string): string
  {
    "could not convert string to float: '" + s + "'"
  }

  /** `solar_data` for the query arguments `lat` and `lon` (`None` when absent). */
  function SolarResponse(latArg: Option<string>, lonArg: Option<string>,
                         parseFloat: string -> Option<real>, cosPow: real -> real,
                         dist: (real, real, real, real) -> real): (r: Response)
    ensures Status(r) == 400 <==> latArg.None? || lonArg.None?
    ensures Status(r) == 500 <==>
      latArg.Some? && lonArg.Some? && (parseFloat(latArg.value).None? || parseFloat(lonArg.value).None?)
    ensures Status(r) == 200 <==>
      latArg.Some? && lonArg.Some? && parseFloat(latArg.value).Some? && parseFloat(lonArg.value).Some?
    ensures r.Ok? ==>
      && r.data.latitude == parseFloat(latArg.value).value
      && r.data.longitude == parseFloat(lonArg.value).value
  {
    if latArg.None? || lonArg.None? then BadRequest(MissingParameters)
    else
      match parseFloat(latArg.value)
      case None => ServerError(ConversionError(latArg.value))
      case Some(lat) =>
        match parseFloat(lonArg.value)
        case None => ServerError(ConversionError(lonArg.value))
        case Some(lon) =>
          var p := IrradiationProfile(cosPow, lat);
          Ok(SolarData(
            lat, lon,
            RoundHalfEven(p.totalAnnual, 2),
            RoundHalfEven(p.totalAnnual / 12.0, 2),
            RoundHalfEven(p.totalAnnual / 365.0, 2),
            seq(|p.monthly|, i requires 0 <= i < |p.monthly| => RoundHalfEven(p.monthly[i], 2)),
            DistanceToCoast(dist, lat, lon)))
  }

  /** A missing parameter answers 400 with the fixed message, whatever the
      other argument and without parsing or computing anything. */
  lemma MissingParameterIsBadRequest(latArg: Option<string>, lonArg: Option<string>,
                                     parseFloat: string -> Option<real>, cosPow: real -> real,
                                     dist: (real, real, real, real) -> real)
    requires latArg.None? || lonArg.None?
    ensures SolarResponse(latArg, lonArg, parseFloat, cosPow, dist) == BadRequest(MissingParameters)
    ensures Status(SolarResponse(latArg, lonArg, parseFloat, cosPow, dist)) == 400
  {
  }

  /** A latitude that does not parse answers 500 with the conversion error
      for the latitude text, even when the longitude is malformed too. */
  lemma UnparsableLatitudeIsServerError(lat: string, lonArg: Option<string>,
                                        parseFloat: string -> Option<real>, cosPow: real -> real,
                                        dist: (real, real, real, real) -> real)
    requires lonArg.Some? && parseFloat(lat).None?
    ensures SolarResponse(Some(lat), lonArg, parseFloat, cosPow, dist) == ServerError(ConversionError(lat))
    ensures Status(SolarResponse(Some(lat), lonArg, parseFloat, cosPow, dist)) == 500
  {
  }

  /** With both coordinates parsed, the response carries twelve monthly
      values, all the same, and the annual and average figures, each rounded
      to two decimals half-to-even; the annual figure is 1000 times the
      attenuation before rounding, hence at least 199.995. */
  lemma SuccessfulResponse(latText: string, lonText: string, lat: real, lon: real,
                           parseFloat: string -> Option<real>, cosPow: real -> real,
                           dist: (real, real, real, real) -> real)
    requires parseFloat(latText) == Some(lat) && parseFloat(lonText) == Some(lon)
    ensures var r := SolarResponse(Some(latText), Some(lonText), parseFloat, cosPow, dist);
      var total := Base * Attenuation(cosPow, lat);
      && r.Ok? && Status(r) == 200
      && r.data.latitude == lat && r.data.longitude == lon
      && r.data.annualIrradiation == RoundHalfEven(total, 2)
      && r.data.annualIrradiation >= 199.995
      && r.data.averageMonthly == RoundHalfEven(total / 12.0, 2)
      && r.data.averageDaily == RoundHalfEven(total / 365.0, 2)
      && |r.data.monthlyValues| == 12
      && (forall i :: 0 <= i < 12 ==> r.data.monthlyValues[i] == r.data.averageMonthly)
      && r.data.distanceToCoastKm == DistanceToCoast(dist, lat, lon)
  {
    TotalIsAttenuatedBase(cosPow, lat);
    var total := Base * Attenuation(cosPow, lat);
    assert 1.0 / (2.0 * Scale(2)) == 0.005;
    assert RoundHalfEven(total, 2) >= total - 0.005;
  }
}
