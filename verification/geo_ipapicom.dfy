/**
 The ip-api.com adapter (`IP_ApiGeoService`). Its record names the country
 `Country` and the coordinates `Lat` and `Lon`, all three aliases of the
 canonical properties.
 */
module IPApiCom {
  import opened Results
  import opened Text
  import opened Canonical
  import Localities

  /** The response record, as decoded from camelCase JSON. */
  datatype Record = Record(
    query: Option<string>,
    status: Option<string>,
    country: Option<string>,        // the provider's name for the canonical CountryName
    countryCode: Option<string>,
    region: Option<string>,
    regionName: Option<string>,
    city: Option<string>,
    zip: Option<string>,
    lat: real,                      // the provider's name for the canonical Latitude
    lon: real,                      // the provider's name for the canonical Longitude
    timezone: Option<string>,
    isp: Option<string>,
    org: Option<string>,
    asName: Option<string>)         // `As`

  /** The post-parse mapping: `Country`, `Lat`, `Lon` are canonical properties renamed. */
  function ToGeoInfo(r: Record): (g: GeoInfo)
    ensures Get(g, CountryName) == Str(r.country)
    ensures Get(g, CountryCode) == Str(r.countryCode)
    ensures Get(g, Latitude) == Number(r.lat)
    ensures Get(g, Longitude) == Number(r.lon)
    ensures Get(g, Timezone) == Str(r.timezone)
  {
    GeoInfo(r.country, r.countryCode, r.lat, r.lon, r.timezone)
  }

  /** The provider-only part of a record: every canonical slot cleared. */
  function Extras(r: Record): Record {
    r.(country := None, countryCode := None, lat := 0.0, lon := 0.0, timezone := None)
  }

  /**
   Writes a canonical property through the record: the view changes as a
   `GeoInfo` write would, nothing provider-only changes, and the
   provider-named `Country`, `Lat`, `Lon` read the value written.
   */
  function Put(r: Record, f: GeoField, v: Value): (r': Record)
    requires Fits(f, v)
    ensures ToGeoInfo(r') == Set(ToGeoInfo(r), f, v)
    ensures Extras(r') == Extras(r)
    ensures f == CountryName ==> r'.country == v.text
    ensures f == Latitude ==> r'.lat == v.number
    ensures f == Longitude ==> r'.lon == v.number
  {
    match f
    case CountryName => r.(country := v.text)
    case CountryCode => r.(countryCode := v.text)
    case Latitude => r.(lat := v.number)
    case Longitude => r.(lon := v.number)
    case Timezone => r.(timezone := v.text)
  }

  /** Setting `Country`: the canonical `CountryName` reads it; nothing else changes. */
  function SetCountry(r: Record, v: Option<string>): (r': Record)
    ensures ToGeoInfo(r').countryName == v
    ensures ToGeoInfo(r') == Set(ToGeoInfo(r), CountryName, Str(v))
    ensures Extras(r') == Extras(r)
  {
    r.(country := v)
  }

  /** Setting `Lat`: the canonical `Latitude` reads it; nothing else changes. */
  function SetLat(r: Record, x: real): (r': Record)
    ensures ToGeoInfo(r').latitude == x
    ensures ToGeoInfo(r') == Set(ToGeoInfo(r), Latitude, Number(x))
    ensures Extras(r') == Extras(r)
  {
    r.(lat := x)
  }

  /** Setting `Lon`: the canonical `Longitude` reads it; nothing else changes. */
  function SetLon(r: Record, x: real): (r': Record)
    ensures ToGeoInfo(r').longitude == x
    ensures ToGeoInfo(r') == Set(ToGeoInfo(r), Longitude, Number(x))
    ensures Extras(r') == Extras(r)
  {
    r.(lon := x)
  }

  /** `ToString()`: city, region name, country; every kept text is followed by `", "`. */
  function Display(r: Record): (d: string)
    ensures d == TrimEnd(Join(Localities.NonBlank([r.city, r.regionName, r.country]), Localities.Separator), Localities.Trimmed)
    ensures |d| == 0 || d[|d| - 1] !in Localities.Trimmed
  {
    Localities.Display([r.city, r.regionName, r.country], true)
  }
}
