/**
 The freeipapi.com adapter (`FreeIPApiGeoIPService`). Its record uses the
 canonical property names directly, plus a currency object and lists of
 time zones and top-level domains.
 */
module FreeIPApi {
  import opened Results
  import opened Text
  import opened Canonical
  import Localities

  /** Both properties are `required`: a present currency has both. */
  datatype CurrencyInfo = CurrencyInfo(code: string, name: string)

  /** The response record, as decoded from camelCase JSON. */
  datatype Record = Record(
    ipVersion: int,
    ipAddress: Option<string>,
    latitude: real,
    longitude: real,
    countryName: Option<string>,
    countryCode: Option<string>,
    timezone: Option<string>,
    zipCode: Option<string>,
    cityName: Option<string>,
    regionName: Option<string>,
    isProxy: bool,
    continent: Option<string>,
    continentCode: Option<string>,
    currency: Option<CurrencyInfo>,
    language: Option<string>,
    timezones: Option<seq<string>>,
    tlds: Option<seq<string>>)

  /** The post-parse mapping: every canonical property under its own name. */
  function ToGeoInfo(r: Record): (g: GeoInfo)
    ensures Get(g, CountryName) == Str(r.countryName)
    ensures Get(g, CountryCode) == Str(r.countryCode)
    ensures Get(g, Latitude) == Number(r.latitude)
    ensures Get(g, Longitude) == Number(r.longitude)
    ensures Get(g, Timezone) == Str(r.timezone)
  {
    GeoInfo(r.countryName, r.countryCode, r.latitude, r.longitude, r.timezone)
  }

  /** `ToString()`: city, region, country, continent. */
  function Display(r: Record): (d: string)
    ensures d == TrimEnd(Join(Localities.NonBlank([r.cityName, r.regionName, r.countryName, r.continent]), Localities.Separator), Localities.Trimmed)
    ensures |d| == 0 || d[|d| - 1] !in Localities.Trimmed
  {
    Localities.Display([r.cityName, r.regionName, r.countryName, r.continent], false)
  }
}
