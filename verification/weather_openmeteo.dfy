/**
 The Open-Meteo adapter (`OpenMeteoWeatherService`). Its record keeps the
 canonical latitude and longitude as decoded and overrides only the
 temperature getter, projecting the `current` block.
 */
module OpenMeteo {
  import opened Results
  import opened Text
  import opened Canonical

  /** The unit strings of the `current` block. */
  datatype CurrentUnits = CurrentUnits(
    time: Option<string>, interval: Option<string>, temperature2m: Option<string>,
    windSpeed10m: Option<string>, relativeHumidity2m: Option<string>,
    apparentTemperature: Option<string>, isDay: Option<string>, precipitation: Option<string>,
    rain: Option<string>, showers: Option<string>, snowfall: Option<string>,
    weatherCode: Option<string>, cloudCover: Option<string>, pressureMsl: Option<string>,
    surfacePressure: Option<string>, windDirection10m: Option<string>, windGusts10m: Option<string>)

  /** The `current` block: one reading per requested field. */
  datatype Current = Current(
    time: Option<string>, interval: int, temperature2m: real, windSpeed10m: real,
    relativeHumidity2m: int, apparentTemperature: real, isDay: int, precipitation: real,
    rain: real, showers: real, snowfall: real, weatherCode: int, cloudCover: int,
    pressureMsl: real, surfacePressure: real, windDirection10m: int, windGusts10m: real)

  /** The response record, as decoded from snake_case JSON. */
  datatype Record = Record(
    stored: WeatherInfo,            // the base-class storage: `latitude`, `longitude` land here
    generationtimeMs: real,
    utcOffsetSeconds: int,
    timezone: Option<string>,
    timezoneAbbreviation: Option<string>,
    elevation: real,
    currentUnits: Option<CurrentUnits>,
    current: Option<Current>)

  /**
   The reported canonical values: the stored latitude and longitude, and
   the `temperature_2m` of the `current` block, 0 when that block is absent.
   */
  function ToWeatherInfo(r: Record): (w: WeatherInfo)
    ensures w.latitude == r.stored.latitude && w.longitude == r.stored.longitude
    ensures r.current.Some? ==> w.temperature == r.current.value.temperature2m
    ensures r.current.None? ==> w.temperature == 0.0
  {
    r.stored.(temperature := match r.current case Some(c) => c.temperature2m case None => 0.0)
  }

  /**
   The coordinates are read through: writing one through its setter is
   reported as written. The temperature is a projection: writing it
   through its setter changes nothing reported.
   */
  lemma SettersOnStoredFields(r: Record, f: WeatherField, x: real)
    ensures f != Temperature ==> ToWeatherInfo(r.(stored := Write(r.stored, f, x))) == Write(ToWeatherInfo(r), f, x)
    ensures f == Temperature ==> ToWeatherInfo(r.(stored := Write(r.stored, f, x))) == ToWeatherInfo(r)
  {
  }

  /** The fifteen `current=` fields requested, in request order. */
  const CurrentFields: seq<string> := [
    "temperature_2m", "relative_humidity_2m", "apparent_temperature", "is_day",
    "precipitation", "rain", "showers", "snowfall", "weather_code", "cloud_cover",
    "pressure_msl", "surface_pressure", "wind_speed_10m", "wind_direction_10m",
    "wind_gusts_10m"]

  /** The three `daily=` fields requested. */
  const DailyFields: seq<string> := ["weather_code", "temperature_2m_max", "temperature_2m_min"]

  /** The query pairs: coordinates, the current fields and the daily fields; no units. */
  function Params(lat: string, lon: string): seq<Param> {
    Pairing(lat, lon, Join(CurrentFields, ","), Join(DailyFields, ","))
  }

  function Pairing(lat: string, lon: string, current: string, daily: string): seq<Param> {
    [Param("latitude", lat), Param("longitude", lon), Param("current", current), Param("daily", daily)]
  }

  /** Four clean values read back from the query, under the four names only. */
  lemma PairingReadsBack(lat: string, lon: string, current: string, daily: string)
    requires Clean(lat) && Clean(lon) && Clean(current) && Clean(daily)
    ensures ParseQuery(Query(Pairing(lat, lon, current, daily))) == Some(Pairing(lat, lon, current, daily))
  {
    QueryRoundTrip(Pairing(lat, lon, current, daily));
  }

  /**
   `?latitude={lat}&longitude={lon}&current=...&daily=...`, with the
   coordinates already formatted. When the formatted coordinates hold no
   `&` or `=`, the query reads back as exactly four pairs, none of them a
   units setting.
   */
  function Target(lat: string, lon: string): (t: string)
    ensures Clean(lat) && Clean(lon) ==> ParseQuery(t) == Some(Params(lat, lon))
  {
    FieldListsClean();
    if Clean(lat) && Clean(lon) then
      PairingReadsBack(lat, lon, Join(CurrentFields, ","), Join(DailyFields, ","));
      Query(Params(lat, lon))
    else Query(Params(lat, lon))
  }

  /** Text free of the query delimiters and of the list delimiter. */
  predicate Plain(s: string) {
    forall i :: 0 <= i < |s| ==> s[i] !in {'&', '=', ','}
  }

  /**
   A comma-joined list of plain names is free of query delimiters and
   splits back on `','` into the same names.
   */
  lemma PlainListReadsBack(xs: seq<string>)
    requires |xs| >= 1
    requires forall i :: 0 <= i < |xs| ==> Plain(xs[i])
    ensures Clean(Join(xs, ","))
    ensures Split(Join(xs, ","), ',') == xs
  {
    JoinKeepsOut(xs, ",", '&');
    JoinKeepsOut(xs, ",", '=');
    SplitJoin(xs, ',');
  }

  lemma CurrentFieldsPlain()
    ensures forall i :: 0 <= i < |CurrentFields| ==> Plain(CurrentFields[i])
  {
    FirstCurrentFieldsPlain();
    LastCurrentFieldsPlain();
  }

  lemma FirstCurrentFieldsPlain()
    ensures forall i :: 0 <= i < 8 ==> Plain(CurrentFields[i])
  {
    var xs := CurrentFields;
    assert Plain(xs[0]) && Plain(xs[1]) && Plain(xs[2]) && Plain(xs[3]);
    assert Plain(xs[4]) && Plain(xs[5]) && Plain(xs[6]) && Plain(xs[7]);
  }

  lemma LastCurrentFieldsPlain()
    ensures forall i :: 8 <= i < 15 ==> Plain(CurrentFields[i])
  {
    var xs := CurrentFields;
    assert Plain(xs[8]) && Plain(xs[9]) && Plain(xs[10]) && Plain(xs[11]);
    assert Plain(xs[12]) && Plain(xs[13]) && Plain(xs[14]);
  }

  lemma DailyFieldsPlain()
    ensures forall i :: 0 <= i < |DailyFields| ==> Plain(DailyFields[i])
  {
    var ys := DailyFields;
    assert Plain(ys[0]) && Plain(ys[1]) && Plain(ys[2]);
  }

  /**
   The requested field lists hold no query delimiter, and the provider
   reading the `current=` and `daily=` values on `','` gets back the
   fifteen and the three fields as listed.
   */
  lemma FieldListsClean()
    ensures Clean(Join(CurrentFields, ",")) && Clean(Join(DailyFields, ","))
    ensures Split(Join(CurrentFields, ","), ',') == CurrentFields && |CurrentFields| == 15
    ensures Split(Join(DailyFields, ","), ',') == DailyFields && |DailyFields| == 3
  {
    CurrentFieldsPlain();
    DailyFieldsPlain();
    PlainListReadsBack(CurrentFields);
    PlainListReadsBack(DailyFields);
  }
}
