/**
 The OpenWeatherMap adapter (`OpenWeatherMapWeatherService`). Its record
 overrides the getters of the three canonical properties with projections
 of the nested `Coord` and `Main` objects; the setters it inherits still
 write the base storage, which the overriding getters never read.
 */
module OpenWeatherMap {
  import opened Results
  import opened Text
  import opened Canonical

  datatype Coord = Coord(lon: real, lat: real)

  /** The `Main` object of the response. */
  datatype Readings = Readings(
    temp: real, feelsLike: real, tempMin: real, tempMax: real,
    pressure: int, humidity: int, seaLevel: int, grndLevel: int)

  datatype Wind = Wind(speed: real, deg: int, gust: real)

  datatype Rain = Rain(lh: real)

  datatype Clouds = Clouds(all: int)

  datatype Sys = Sys(kind: int, id: int, country: Option<string>, sunrise: int, sunset: int)

  datatype Weather = Weather(id: int, main: Option<string>, description: Option<string>, icon: Option<string>)

  /** The response record, as decoded from snake_case JSON. */
  datatype Record = Record(
    stored: WeatherInfo,            // the base-class storage behind the inherited setters
    coord: Option<Coord>,
    weather: Option<seq<Weather>>,
    base: Option<string>,
    main: Option<Readings>,
    visibility: int,
    wind: Option<Wind>,
    rain: Option<Rain>,
    icon: Option<Clouds>,
    dt: int,
    sys: Option<Sys>,
    timezone: int,
    id: int,
    name: Option<string>,
    cod: int)

  /**
   The reported canonical values: the coordinates of `Coord` and the
   temperature of `Main`, each 0 when its object is absent.
   */
  function ToWeatherInfo(r: Record): (w: WeatherInfo)
    ensures r.coord.Some? ==> w.latitude == r.coord.value.lat && w.longitude == r.coord.value.lon
    ensures r.coord.None? ==> w.latitude == 0.0 && w.longitude == 0.0
    ensures r.main.Some? ==> w.temperature == r.main.value.temp
    ensures r.main.None? ==> w.temperature == 0.0
  {
    WeatherInfo(
      match r.coord case Some(c) => c.lat case None => 0.0,
      match r.coord case Some(c) => c.lon case None => 0.0,
      match r.main case Some(m) => m.temp case None => 0.0)
  }

  /** Only `Coord` and `Main` decide the reported values; no other property does. */
  lemma OnlyCoordAndMainMatter(r1: Record, r2: Record)
    requires r1.coord == r2.coord && r1.main == r2.main
    ensures ToWeatherInfo(r1) == ToWeatherInfo(r2)
  {
  }

  /** Writing a canonical property through its inherited setter changes nothing reported. */
  lemma SettersAreInvisible(r: Record, f: WeatherField, x: real)
    ensures ToWeatherInfo(r.(stored := Write(r.stored, f, x))) == ToWeatherInfo(r)
  {
  }

  /** `?lat={lat}&lon={lon}&appid={key}`, with the coordinates already formatted. */
  function Target(lat: string, lon: string, key: string): (t: string)
    ensures Clean(lat) && Clean(lon) && Clean(key) ==>
      ParseQuery(t) == Some([Param("lat", lat), Param("lon", lon), Param("appid", key)])
  {
    var ps := [Param("lat", lat), Param("lon", lon), Param("appid", key)];
    QueryThree("lat", lat, "lon", lon, "appid", key);
    assert "?lat=" + lat + "&lon=" + lon + "&appid=" + key
        == "?" + "lat" + "=" + lat + "&" + "lon" + "=" + lon + "&" + "appid" + "=" + key;
    if Clean(lat) && Clean(lon) && Clean(key) then
      QueryRoundTrip(ps); "?lat=" + lat + "&lon=" + lon + "&appid=" + key
    else "?lat=" + lat + "&lon=" + lon + "&appid=" + key
  }
}
