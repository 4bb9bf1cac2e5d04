/**
 The iplocation.net adapter (`IPLocationGeoIPService`). Its record names
 the country code `CountryCode2` and it keeps the default display.
 */
module IPLocation {
  import opened Results
  import opened Text
  import opened Canonical

  /** The response record, as decoded from snake_case JSON. */
  datatype Record = Record(
    ip: Option<string>,
    ipNumber: Option<string>,
    ipVersion: int,
    countryName: Option<string>,
    countryCode2: Option<string>,   // the provider's name for the canonical CountryCode
    latitude: real,
    longitude: real,
    timezone: Option<string>,
    isp: Option<string>)

  /** The post-parse mapping: `CountryCode2` is the canonical `CountryCode`. */
  function ToGeoInfo(r: Record): (g: GeoInfo)
    ensures Get(g, CountryName) == Str(r.countryName)
    ensures Get(g, CountryCode) == Str(r.countryCode2)
    ensures Get(g, Latitude) == Number(r.latitude)
    ensures Get(g, Longitude) == Number(r.longitude)
    ensures Get(g, Timezone) == Str(r.timezone)
  {
    GeoInfo(r.countryName, r.countryCode2, r.latitude, r.longitude, r.timezone)
  }

  /** The provider-only part of a record: every canonical slot cleared. */
  function Extras(r: Record): Record {
    r.(countryName := None, countryCode2 := None, latitude := 0.0, longitude := 0.0, timezone := None)
  }

  /**
   Writes a canonical property through the record: the view changes as a
   `GeoInfo` write would, nothing provider-only changes, and the
   provider-named `CountryCode2` reads the value written to `CountryCode`.
   */
  function Put(r: Record, f: GeoField, v: Value): (r': Record)
    requires Fits(f, v)
    ensures ToGeoInfo(r') == Set(ToGeoInfo(r), f, v)
    ensures Extras(r') == Extras(r)
    ensures f == CountryCode ==> r'.countryCode2 == v.text
  {
    match f
    case CountryName => r.(countryName := v.text)
    case CountryCode => r.(countryCode2 := v.text)
    case Latitude => r.(latitude := v.number)
    case Longitude => r.(longitude := v.number)
    case Timezone => r.(timezone := v.text)
  }

  /**
   Setting the provider-named `CountryCode2`: the canonical `CountryCode`
   reads the value written, and nothing else changes.
   */
  function SetCountryCode2(r: Record, v: Option<string>): (r': Record)
    ensures ToGeoInfo(r').countryCode == v
    ensures ToGeoInfo(r') == Set(ToGeoInfo(r), CountryCode, Str(v))
    ensures Extras(r') == Extras(r)
  {
    r.(countryCode2 := v)
  }

  /** The record does not override `ToString()`: its display is the country name. */
  function Display(r: Record): (d: Option<string>)
    ensures d == r.countryName
  {
    DefaultDisplay(ToGeoInfo(r))
  }

  /**
   The display follows the country name alone: a country name written
   through the record is shown as written, and writing any other canonical
   property, or the provider-named `CountryCode2`, leaves it as it was.
   */
  lemma DisplayFollowsCountryName(r: Record, f: GeoField, v: Value, code: Option<string>)
    requires Fits(f, v)
    ensures f == CountryName ==> Display(Put(r, f, v)) == v.text
    ensures f != CountryName ==> Display(Put(r, f, v)) == Display(r)
    ensures Display(SetCountryCode2(r, code)) == Display(r)
  {
    DefaultDisplayFollowsCountryName(ToGeoInfo(r), f, v);
  }

  /** `?ip={ip}`: the address inserted verbatim. */
  function Target(ip: string): (t: string)
    ensures Clean(ip) ==> ParseQuery(t) == Some([Param("ip", ip)])
  {
    QueryOne("ip", ip);
    assert "?ip=" + ip == "?" + "ip" + "=" + ip;
    if Clean(ip) then QueryRoundTrip([Param("ip", ip)]); "?ip=" + ip else "?ip=" + ip
  }
}
