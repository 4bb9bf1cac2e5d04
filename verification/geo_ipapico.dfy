/**
 The ipapi.co adapter (`IPApiGeoIPService`). Its record names the country
 `Country`, an alias of the canonical `CountryName`.
 */
module IPApiCo {
  import opened Results
  import opened Text
  import opened Canonical
  import Localities

  /** The response record, as decoded from snake_case JSON. */
  datatype Record = Record(
    ip: Option<string>,
    network: Option<string>,
    version: Option<string>,
    city: Option<string>,
    region: Option<string>,
    regionCode: Option<string>,
    country: Option<string>,        // the provider's name for the canonical CountryName
    countryCode: Option<string>,
    countryCodeIso3: Option<string>,
    countryCapital: Option<string>,
    countryTld: Option<string>,
    continentCode: Option<string>,
    inEu: bool,
    postal: Option<string>,
    latitude: real,
    longitude: real,
    timezone: Option<string>,
    utcOffset: Option<string>,
    countryCallingCode: Option<string>,
    currency: Option<string>,
    currencyName: Option<string>,
    languages: Option<string>,
    countryArea: Option<string>,
    countryPopulation: int,
    asn: Option<string>,
    org: Option<string>)

  /** The post-parse mapping: `Country` is the canonical `CountryName`. */
  function ToGeoInfo(r: Record): (g: GeoInfo)
    ensures Get(g, CountryName) == Str(r.country)
    ensures Get(g, CountryCode) == Str(r.countryCode)
    ensures Get(g, Latitude) == Number(r.latitude)
    ensures Get(g, Longitude) == Number(r.longitude)
    ensures Get(g, Timezone) == Str(r.timezone)
  {
    GeoInfo(r.country, r.countryCode, r.latitude, r.longitude, r.timezone)
  }

  /** The provider-only part of a record: every canonical slot cleared. */
  function Extras(r: Record): Record {
    r.(country := None, countryCode := None, latitude := 0.0, longitude := 0.0, timezone := None)
  }

  /**
   Writes a canonical property through the record: the view changes as a
   `GeoInfo` write would, nothing provider-only changes, and the
   provider-named `Country` reads the value written to `CountryName`.
   */
  function Put(r: Record, f: GeoField, v: Value): (r': Record)
    requires Fits(f, v)
    ensures ToGeoInfo(r') == Set(ToGeoInfo(r), f, v)
    ensures Extras(r') == Extras(r)
    ensures f == CountryName ==> r'.country == v.text
  {
    match f
    case CountryName => r.(country := v.text)
    case CountryCode => r.(countryCode := v.text)
    case Latitude => r.(latitude := v.number)
    case Longitude => r.(longitude := v.number)
    case Timezone => r.(timezone := v.text)
  }

  /** Setting `Country`: the canonical `CountryName` reads it; nothing else changes. */
  function SetCountry(r: Record, v: Option<string>): (r': Record)
    ensures ToGeoInfo(r').countryName == v
    ensures ToGeoInfo(r') == Set(ToGeoInfo(r), CountryName, Str(v))
    ensures Extras(r') == Extras(r)
  {
    r.(country := v)
  }

  /** `ToString()`: city, region, country; the country is not followed by `", "`. */
  function Display(r: Record): (d: string)
    ensures d == TrimEnd(Join(Localities.NonBlank([r.city, r.region, r.country]), Localities.Separator), Localities.Trimmed)
    ensures |d| == 0 || d[|d| - 1] !in Localities.Trimmed
  {
    Localities.Display([r.city, r.region, r.country], false)
  }

  /**
   `{ip}/json`: the address inserted verbatim as the leading path segments.
   Read back on `'/'`, the target is the address's own segments followed by
   `json`; an address without `'/'` is exactly one segment.
   */
  function Target(ip: string): (t: string)
    ensures Split(t, '/') == Split(ip, '/') + ["json"]
    ensures '/' !in ip ==> Split(t, '/') == [ip, "json"]
  {
    assert ip + "/json" == ip + ['/'] + "json";
    SplitAround(ip, "json", '/');
    SplitFree("json", '/');
    SplitWhole(ip, '/');
    ip + "/json"
  }

  /**
   Because nothing is escaped, an address holding `'/'` adds a path
   segment: `a/b` is requested as `a/b/json`, three segments.
   */
  lemma SlashAddsSegment(a: string, b: string)
    requires '/' !in a && '/' !in b
    ensures Split(Target(a + "/" + b), '/') == [a, b, "json"]
  {
    assert a + "/" + b == a + ['/'] + b;
    SplitPrefix(a, b, '/');
    SplitFree(b, '/');
  }
}
