/**
 The ipgeolocation.io adapter (`IPGeolocationGeoIPService`). Its record
 names the country code `CountryCode2`, receives the coordinates as
 decimal strings that the setters parse with the invariant culture, and
 hides the canonical `Timezone` string behind a nested time-zone object.
 */
module IPGeolocation {
  import opened Results
  import opened Text
  import opened Canonical
  import Localities

  datatype Currency = Currency(name: Option<string>, code: Option<string>, symbol: Option<string>)

  /** A `DateTime`, by its tick count. */
  datatype DateTime = DateTime(ticks: int)

  datatype Dst = Dst(
    utcTime: Option<string>,
    duration: Option<string>,
    gap: bool,
    dateTimeAfter: Option<string>,
    dateTimeBefore: Option<string>,
    overlap: bool)

  /**
   The nested time-zone object. A record property of this type, declared
   `new`, hides the canonical `Timezone` string, so the base property is
   never written and stays null.
   */
  datatype TimeZoneInfo = TimeZoneInfo(
    name: Option<string>,
    offset: int,
    offsetWithDst: int,
    currentTime: DateTime,
    currentTimeUnix: real,
    isDst: bool,
    dstSavings: int,
    dstExists: bool,
    dstStart: Option<Dst>,
    dstEnd: Option<Dst>)

  /** The response record, as decoded from snake_case JSON. */
  datatype Record = Record(
    ip: Option<string>,
    hostname: Option<string>,
    continentCode: Option<string>,
    continentName: Option<string>,
    countryCode2: Option<string>,   // the provider's name for the canonical CountryCode
    countryCode3: Option<string>,
    countryName: Option<string>,
    countryCapital: Option<string>,
    stateProv: Option<string>,
    district: Option<string>,
    city: Option<string>,
    zipCode: Option<string>,
    latitude: Option<string>,       // decimal text, parsed into the canonical Latitude
    longitude: Option<string>,      // decimal text, parsed into the canonical Longitude
    isEu: bool,
    callingCode: Option<string>,
    countryTld: Option<string>,
    languages: Option<string>,
    countryFlag: Option<string>,
    isp: Option<string>,
    connectionType: Option<string>,
    organization: Option<string>,
    countryEmoji: Option<string>,
    geoNameId: Option<string>,
    currency: Option<Currency>,
    timeZone: Option<TimeZoneInfo>) // the hiding `Timezone` property

  /** Text the coordinate setter accepts: blank, or text the parser reads. */
  predicate Readable(text: Option<string>, parse: string -> Option<real>) {
    IsNullOrWhiteSpace(text) || parse(text.value).Some?
  }

  /**
   The string `Latitude`/`Longitude` setter. Null or white-space text leaves
   the record exactly as it was; other text is parsed (`double.Parse` with
   the invariant culture, here the parameter `parse`) and stored in that
   coordinate alone, or fails with a format error.
   */
  function SetCoordinateText(g: GeoInfo, f: GeoField, text: Option<string>, parse: string -> Option<real>): (r: Result<GeoInfo>)
    requires IsCoordinate(f)
    ensures IsNullOrWhiteSpace(text) ==> r == Ok(g)
    ensures r.Ok? <==> Readable(text, parse)
    ensures r.Ok? && !IsNullOrWhiteSpace(text) ==> r.value == Set(g, f, Number(parse(text.value).value))
    ensures r.Err? ==> r.error == Format
  {
    if IsNullOrWhiteSpace(text) then Ok(g)
    else match parse(text.value)
      case None => Err(Format)
      case Some(x) => Ok(Set(g, f, Number(x)))
  }

  /**
   The string getter formats the stored coordinate; when formatting and
   parsing round-trip, setting the text read from a coordinate stores that
   same coordinate.
   */
  lemma CoordinateTextRoundTrip(g: GeoInfo, f: GeoField, x: real,
                                format: real -> string, parse: string -> Option<real>)
    requires IsCoordinate(f)
    requires parse(format(x)) == Some(x) && !IsBlank(format(x))
    ensures SetCoordinateText(g, f, Some(format(x)), parse) == Ok(Set(g, f, Number(x)))
  {
  }

  /**
   The post-parse mapping: `CountryCode2` becomes `CountryCode`, the
   coordinate texts go through the coordinate setter starting from 0, and
   the canonical `Timezone` stays null because the record's own `Timezone`
   property hides it, and decoding writes only the hiding property.
   */
  function ToGeoInfo(r: Record, parse: string -> Option<real>): (g: Result<GeoInfo>)
    ensures g.Ok? <==> Readable(r.latitude, parse) && Readable(r.longitude, parse)
    ensures g.Ok? ==> g.value.countryName == r.countryName && g.value.countryCode == r.countryCode2
    ensures g.Ok? ==> g.value.timezone.None?
    ensures g.Ok? && IsNullOrWhiteSpace(r.latitude) ==> g.value.latitude == 0.0
    ensures g.Ok? && IsNullOrWhiteSpace(r.longitude) ==> g.value.longitude == 0.0
    ensures g.Ok? && !IsNullOrWhiteSpace(r.latitude) ==> g.value.latitude == parse(r.latitude.value).value
    ensures g.Ok? && !IsNullOrWhiteSpace(r.longitude) ==> g.value.longitude == parse(r.longitude.value).value
    ensures g.Err? ==> g.error == Format
  {
    var g0 := GeoInfo(r.countryName, r.countryCode2, 0.0, 0.0, None);
    var g1 :- SetCoordinateText(g0, Latitude, r.latitude, parse);
    SetCoordinateText(g1, Longitude, r.longitude, parse)
  }

  /**
   Writing the provider-named `CountryCode2` and then reading the canonical
   `CountryCode` gives the value written; nothing else in the view changes.
   */
  lemma CountryCode2IsCountryCode(r: Record, v: Option<string>, parse: string -> Option<real>)
    ensures ToGeoInfo(r.(countryCode2 := v), parse).Ok? == ToGeoInfo(r, parse).Ok?
    ensures ToGeoInfo(r, parse).Ok? ==>
      ToGeoInfo(r.(countryCode2 := v), parse).value == Set(ToGeoInfo(r, parse).value, CountryCode, Str(v))
  {
  }

  /**
   An omitted coordinate cannot be told from a reported 0: a record whose
   latitude is absent maps like one whose latitude text reads as 0.
   */
  lemma OmittedLatitudeIsZero(r: Record, zero: string, parse: string -> Option<real>)
    requires !IsBlank(zero) && parse(zero) == Some(0.0)
    ensures ToGeoInfo(r.(latitude := None), parse) == ToGeoInfo(r.(latitude := Some(zero)), parse)
  {
  }

  /** `ToString()`: city, district, country, continent. */
  function Display(r: Record): (d: string)
    ensures d == TrimEnd(Join(Localities.NonBlank([r.city, r.district, r.countryName, r.continentName]), Localities.Separator), Localities.Trimmed)
    ensures |d| == 0 || d[|d| - 1] !in Localities.Trimmed
  {
    Localities.Display([r.city, r.district, r.countryName, r.continentName], false)
  }

  /** `?ip={ip}&apiKey={key}`: both values inserted verbatim. */
  function Target(ip: string, key: string): (t: string)
    ensures Clean(ip) && Clean(key) ==> ParseQuery(t) == Some([Param("ip", ip), Param("apiKey", key)])
  {
    var ps := [Param("ip", ip), Param("apiKey", key)];
    QueryTwo("ip", ip, "apiKey", key);
    assert "?ip=" + ip + "&apiKey=" + key == "?" + "ip" + "=" + ip + "&" + "apiKey" + "=" + key;
    if Clean(ip) && Clean(key) then QueryRoundTrip(ps); "?ip=" + ip + "&apiKey=" + key
    else "?ip=" + ip + "&apiKey=" + key
  }
}
