/**
 The two canonical result shapes every adapter produces: `GeoInfo` and
 `WeatherInfo`. Both are mutable property bags in the source; here each
 property is a field of an immutable record, and writing a property is a
 function from the old record to the new one.

 Floating-point numbers (`double`, `float`) are modelled as `real`.
 */
module Canonical {
  import opened Results

  /** The canonical geolocation record. */
  datatype GeoInfo = GeoInfo(
    countryName: Option<string>,
    countryCode: Option<string>,
    latitude: real,
    longitude: real,
    timezone: Option<string>)

  /** `new GeoInfo()`: reference properties null, numeric properties 0. */
  const FreshGeoInfo: GeoInfo := GeoInfo(None, None, 0.0, 0.0, None)

  /** The five properties of `GeoInfo`, by name. */
  datatype GeoField = CountryName | CountryCode | Latitude | Longitude | Timezone

  /** A property value: a string for the string properties, a number for the coordinates. */
  datatype Value = Str(text: Option<string>) | Number(number: real)

  predicate IsCoordinate(f: GeoField) {
    f == Latitude || f == Longitude
  }

  /** A value of the kind the property holds. */
  predicate Fits(f: GeoField, v: Value) {
    if IsCoordinate(f) then v.Number? else v.Str?
  }

  /** The value a property has on a fresh record. */
  function DefaultOf(f: GeoField): Value {
    if IsCoordinate(f) then Number(0.0) else Str(None)
  }

  /** Reads a property. */
  function Get(g: GeoInfo, f: GeoField): (v: Value)
    ensures Fits(f, v)
  {
    match f
    case CountryName => Str(g.countryName)
    case CountryCode => Str(g.countryCode)
    case Latitude => Number(g.latitude)
    case Longitude => Number(g.longitude)
    case Timezone => Str(g.timezone)
  }

  /**
   Writes a property. The written property reads back the written value,
   the other four are unchanged, and writing back what was read is a no-op.
   */
  function Set(g: GeoInfo, f: GeoField, v: Value): (r: GeoInfo)
    requires Fits(f, v)
    ensures Get(r, f) == v
    ensures forall h :: h != f ==> Get(r, h) == Get(g, h)
    ensures v == Get(g, f) ==> r == g
  {
    match f
    case CountryName => g.(countryName := v.text)
    case CountryCode => g.(countryCode := v.text)
    case Latitude => g.(latitude := v.number)
    case Longitude => g.(longitude := v.number)
    case Timezone => g.(timezone := v.text)
  }

  /** Every property of a fresh record holds its type's default. */
  lemma FreshIsDefault(f: GeoField)
    ensures Get(FreshGeoInfo, f) == DefaultOf(f)
  {
  }

  /**
   The zero default cannot be told apart from a reported coordinate of 0:
   explicitly writing (0, 0) to a fresh record changes nothing.
   */
  lemma OmittedCoordinateIsZero()
    ensures Set(Set(FreshGeoInfo, Latitude, Number(0.0)), Longitude, Number(0.0)) == FreshGeoInfo
  {
  }

  /** `GeoInfo.ToString()`: exactly the country name, null when it is null. */
  function DefaultDisplay(g: GeoInfo): Option<string> {
    g.countryName
  }

  /**
   The default display follows the country name alone: writing the country
   name is shown as written, writing any other property leaves the display
   as it was, and a fresh record displays as null.
   */
  lemma DefaultDisplayFollowsCountryName(g: GeoInfo, f: GeoField, v: Value)
    requires Fits(f, v)
    ensures f == CountryName ==> DefaultDisplay(Set(g, f, v)) == v.text
    ensures f != CountryName ==> DefaultDisplay(Set(g, f, v)) == DefaultDisplay(g)
    ensures DefaultDisplay(FreshGeoInfo) == None
  {
  }

  /** The canonical current-weather record. */
  datatype WeatherInfo = WeatherInfo(latitude: real, longitude: real, temperature: real)

  /** `new WeatherInfo()`: all three properties 0. */
  const FreshWeatherInfo: WeatherInfo := WeatherInfo(0.0, 0.0, 0.0)

  /** The three properties of `WeatherInfo`, by name. */
  datatype WeatherField = WeatherLatitude | WeatherLongitude | Temperature

  function Read(w: WeatherInfo, f: WeatherField): real {
    match f
    case WeatherLatitude => w.latitude
    case WeatherLongitude => w.longitude
    case Temperature => w.temperature
  }

  /**
   Writes a property of a `WeatherInfo`. The written property reads back
   the written value and the other two are unchanged.
   */
  function Write(w: WeatherInfo, f: WeatherField, x: real): (r: WeatherInfo)
    ensures Read(r, f) == x
    ensures forall h :: h != f ==> Read(r, h) == Read(w, h)
    ensures x == Read(w, f) ==> r == w
  {
    match f
    case WeatherLatitude => w.(latitude := x)
    case WeatherLongitude => w.(longitude := x)
    case Temperature => w.(temperature := x)
  }

  /** Every property of a fresh weather record is 0. */
  lemma FreshWeatherIsZero(f: WeatherField)
    ensures Read(FreshWeatherInfo, f) == 0.0
  {
  }
}
