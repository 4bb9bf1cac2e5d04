/**
 The ip2location.io adapter (`IP2LocationGeoIPService`): its response
 record, the mapping of that record onto `GeoInfo`, its display, and its
 request target.
 */
module IP2Location {
  import opened Results
  import opened Text
  import opened Canonical
  import Localities

  /** The response record, as decoded from snake_case JSON. */
  datatype Record = Record(
    ip: Option<string>,
    countryCode: Option<string>,
    countryName: Option<string>,
    regionName: Option<string>,
    cityName: Option<string>,
    latitude: real,
    longitude: real,
    zipCode: Option<string>,
    timeZone: Option<string>,   // the provider's name for the canonical Timezone
    asn: Option<string>,
    asName: Option<string>,     // `As`
    isProxy: bool)

  /** The post-parse mapping: `TimeZone` is the canonical `Timezone`. */
  function ToGeoInfo(r: Record): (g: GeoInfo)
    ensures Get(g, CountryName) == Str(r.countryName)
    ensures Get(g, CountryCode) == Str(r.countryCode)
    ensures Get(g, Latitude) == Number(r.latitude)
    ensures Get(g, Longitude) == Number(r.longitude)
    ensures Get(g, Timezone) == Str(r.timeZone)
  {
    GeoInfo(r.countryName, r.countryCode, r.latitude, r.longitude, r.timeZone)
  }

  /** The provider-only part of a record: every canonical slot cleared. */
  function Extras(r: Record): Record {
    r.(countryCode := None, countryName := None, latitude := 0.0, longitude := 0.0, timeZone := None)
  }

  /**
   Writes a canonical property through the record. The canonical view
   changes exactly as writing the property of a `GeoInfo` would, nothing
   provider-only changes, and the provider-named `TimeZone` reads the value
   written to `Timezone`.
   */
  function Put(r: Record, f: GeoField, v: Value): (r': Record)
    requires Fits(f, v)
    ensures ToGeoInfo(r') == Set(ToGeoInfo(r), f, v)
    ensures Extras(r') == Extras(r)
    ensures f == Timezone ==> r'.timeZone == v.text
  {
    match f
    case CountryName => r.(countryName := v.text)
    case CountryCode => r.(countryCode := v.text)
    case Latitude => r.(latitude := v.number)
    case Longitude => r.(longitude := v.number)
    case Timezone => r.(timeZone := v.text)
  }

  /**
   Setting the provider-named `TimeZone`: reading the canonical `Timezone`
   afterwards gives the value written, and nothing else changes.
   */
  function SetTimeZone(r: Record, v: Option<string>): (r': Record)
    ensures ToGeoInfo(r').timezone == v
    ensures ToGeoInfo(r') == Set(ToGeoInfo(r), Timezone, Str(v))
    ensures Extras(r') == Extras(r)
  {
    r.(timeZone := v)
  }

  /** A record is its provider-only part plus its canonical view: no hidden copy. */
  lemma Lossless(r: Record)
    ensures r == Put(Put(Put(Put(Put(Extras(r),
      CountryName, Str(ToGeoInfo(r).countryName)),
      CountryCode, Str(ToGeoInfo(r).countryCode)),
      Latitude, Number(ToGeoInfo(r).latitude)),
      Longitude, Number(ToGeoInfo(r).longitude)),
      Timezone, Str(ToGeoInfo(r).timezone))
  {
  }

  /** `ToString()`: city, region, country; the country is not followed by `", "`. */
  function Display(r: Record): (d: string)
    ensures d == TrimEnd(Join(Localities.NonBlank([r.cityName, r.regionName, r.countryName]), Localities.Separator), Localities.Trimmed)
    ensures |d| == 0 || d[|d| - 1] !in Localities.Trimmed
  {
    Localities.Display([r.cityName, r.regionName, r.countryName], false)
  }

  /** `?ip={ip}&key={key}`: both values inserted verbatim. */
  function Target(ip: string, key: string): (t: string)
    ensures Clean(ip) && Clean(key) ==> ParseQuery(t) == Some([Param("ip", ip), Param("key", key)])
  {
    var ps := [Param("ip", ip), Param("key", key)];
    QueryTwo("ip", ip, "key", key);
    assert "?ip=" + ip + "&key=" + key == "?" + "ip" + "=" + ip + "&" + "key" + "=" + key;
    if Clean(ip) && Clean(key) then QueryRoundTrip(ps); "?ip=" + ip + "&key=" + key
    else "?ip=" + ip + "&key=" + key
  }

  /**
   Because nothing is escaped, different (address, key) pairs can produce
   the same request: an address carrying `&key=` injects a key.
   */
  lemma TargetNotEscaped()
    ensures Target("1.2.3.4&key=a", "b") == Target("1.2.3.4", "a&key=b")
  {
  }
}
