# GeoServices, modelled in Dafny

GeoServices is a small .NET library of thin HTTP clients. Seven
`IGeoIPService` implementations map an IP address to a `GeoInfo`, which
holds a country name, a country code, a latitude, a longitude and a time
zone. The providers are ip2location.io, ipgeolocation.io, iplocation.net,
hackertarget.com, ip-api.com, ipapi.co and freeipapi.com. Two
`IWeatherService` implementations, OpenWeatherMap and Open-Meteo, map a
latitude and longitude to a `WeatherInfo`: a latitude, a longitude and a
temperature.

Under the HTTP calls there is a small amount of pure logic, and this
project models it over immutable records:

- **The canonical records** (`canonical.dfy`): `GeoInfo` and `WeatherInfo` as property bags. This covers their defaults, property reads and writes, and the default `ToString()`.
- **The .NET string operations the adapters use** (`text.dfy`):
  - `IsNullOrEmpty`, `IsNullOrWhiteSpace` (with the .NET white-space set), `TrimEnd(chars)`, `Trim()`, `Split(char)` and `Join`;
  - query strings built by interpolation, with nothing escaped, and a reader that takes them apart again.
- **The locality display** (`localities.dfy`) that five adapters give as `ToString()`:
  - segments that are null or white space are skipped;
  - every kept segment (for some adapters, all but the last) is followed by `", "`;
  - the text is then passed to `TrimEnd(',', ' ')`. That trim removes every trailing comma and space, including any that belong to the last kept text.
- **One module per provider** (`geo_*.dfy`, `weather_*.dfy`). Each holds:
  - the decoded response record;
  - an explicit post-decoding mapping onto the canonical record, which covers the aliases `CountryCode2`, `Country`, `Lat`, `Lon` and `TimeZone`, the string coordinate setters of ipgeolocation.io, and the projections of the weather records;
  - the adapter's `ToString()`;
  - its request target.
- **The hackertarget.com text parser** (`geo_hackertarget.dfy`). It reads six `Label: value` lines by position.
- **The services** (`services.dfy`):
  - the constructors, with their argument guards and the base address and headers each one sets;
  - `GetInfo`, which guards the address and then sends one request;
  - `GetWeather`, which checks nothing.

The HTTP call and the JSON decoding are a parameter: a function from a base address and a request target to the decoded record, or to `None` on failure. Three .NET routines are uninterpreted functions:

- `double.Parse` with the invariant culture;
- `float.Parse` with the current culture;
- the current-culture formatting of a `double`.

Floating-point numbers are `real`. Null is `None`. An exception is an `Err` that carries the exception kind and, for argument exceptions, the parameter name.

## Model

| member | source | states |
|---|---|---|
| Text.TrimEnd | GeoServices/GeoIPService.cs:54 | `TrimEnd(',', ' ')` returns a prefix of its input. The result does not end in a trimmed character, and every character removed is one of the trimmed characters. |
| Text.Trim | GeoServices/GeoIPService.cs:314-317 | `Trim()` returns a contiguous slice of its input, and everything cut away on either side is white space. The result neither starts nor ends with white space, so it is the input with exactly its leading and trailing white space removed. It is empty exactly when the input is blank. |
| Text.TrimIdempotent | GeoServices/GeoIPService.cs:314-317 | Trimming an already trimmed text changes nothing. |
| Text.NullOrWhiteSpaceIsTrimmedAway | GeoServices/GeoIPService.cs:37 | `string.IsNullOrWhiteSpace` (over the .NET `char.IsWhiteSpace` set) holds exactly for null and for text that `Trim()` empties. Everything `IsNullOrEmpty` accepts, it accepts too. |
| Text.Split | GeoServices/GeoIPService.cs:312 | `Split(c)` always returns at least one piece. No piece contains `c`. There is exactly one piece iff `c` does not occur. |
| Text.JoinSplit | GeoServices/GeoIPService.cs:312 | Joining the pieces of a split with the separator gives back the original text. |
| Text.SplitJoin | GeoServices/GeoIPService.cs:312 | Splitting a join of separator-free pieces gives back those pieces. |
| Text.SplitAround | GeoServices/GeoIPService.cs:500 | Splitting `p + c + q` on `c` gives the pieces of `p` followed by the pieces of `q`, whatever `p` and `q` hold. |
| Text.SplitDetermines | GeoServices/GeoIPService.cs:312 | Two texts that split into the same pieces are equal. |
| Text.QueryRoundTrip | GeoServices/GeoIPService.cs:79 | A query string built by interpolation reads back as exactly its name/value pairs, provided no name or value holds `&` or `=`. |
| Canonical.Set | GeoServices/IGeoIPService.cs:5-9 | Writing a `GeoInfo` property: that property reads back the value written, the other four are unchanged, and writing back the value read changes nothing. |
| Canonical.FreshIsDefault | GeoServices/IGeoIPService.cs:5-9 | On a fresh `GeoInfo` the three strings are null and both coordinates are 0. |
| Canonical.OmittedCoordinateIsZero | GeoServices/IGeoIPService.cs:7-8 | Writing (0, 0) to a fresh `GeoInfo` changes nothing, so an omitted coordinate cannot be told from a reported 0. |
| Canonical.DefaultDisplayFollowsCountryName | GeoServices/IGeoIPService.cs:11 | The default `ToString()` shows a written country name as written and ignores writes to the other four properties. A fresh `GeoInfo` displays as null. |
| Canonical.Write | GeoServices/IWeatherService.cs:10-12 | Writing a `WeatherInfo` property: that property reads back the value written and the other two are unchanged. |
| Canonical.FreshWeatherIsZero | GeoServices/IWeatherService.cs:10-12 | Every property of a fresh `WeatherInfo` is 0. |
| Localities.Compose | GeoServices/GeoIPService.cs:33-55 | The display is a prefix of the builder's contents. It never ends in `','` or `' '`, and only commas and spaces were removed. |
| Localities.AppendedIsJoin | GeoServices/GeoIPService.cs:33-55 | Before trimming, the builder holds the kept texts joined by `", "`, possibly followed by one more `", "`. It is empty when nothing is kept. |
| Localities.ComposeIsTrimmedJoin | GeoServices/GeoIPService.cs:373-396 | The display equals `TrimEnd` of the `", "`-join of the kept texts, so it is always a prefix of that join: nothing is placed before the first kept text. Blank segments are omitted and the order is kept. |
| Localities.ComposeJoinsKept | GeoServices/GeoIPService.cs:458-480 | When the last kept text does not end in a comma or space, the display is exactly the join. When nothing is kept, it is `""`. |
| Localities.ComposeStartsWithFirstKept | GeoServices/GeoIPService.cs:181-209 | When the first kept text does not itself end in a comma or space, the display starts with that whole text. A first text such as `"A,"` loses its trailing comma when nothing follows it. |
| Localities.KeptTextsAreNonBlank | GeoServices/GeoIPService.cs:185-206 | The segments the builder appends are exactly the texts that are neither null nor white space, in order. |
| Localities.Display | GeoServices/GeoIPService.cs:531-559 | The display is the trimmed `", "`-join of the non-blank texts, and so a prefix of that join. It is empty when all texts are blank. It is the exact join when the last kept text does not end in a comma or space, and it starts with the whole first kept text when that text does not. |
| IP2Location.Put | GeoServices/GeoIPService.cs:12-31 | Writing a canonical property through the ip2location.io record changes the `GeoInfo` view as a `GeoInfo` write would. Nothing provider-only changes, and `TimeZone` reads what was written to `Timezone`. |
| IP2Location.SetTimeZone | GeoServices/GeoIPService.cs:18-28 | Setting `TimeZone` sets the canonical `Timezone` and nothing else. |
| IP2Location.Lossless | GeoServices/GeoIPService.cs:12-31 | A record is fully determined by its provider-only part and its canonical view: nothing is stored twice. |
| IP2Location.ToGeoInfo | GeoServices/GeoIPService.cs:12-31 | The `GeoInfo` view reads `CountryName`, `CountryCode`, `Latitude` and `Longitude` under their own names and `Timezone` from the record's `TimeZone`. |
| IP2Location.Display | GeoServices/GeoIPService.cs:33-55 | `ToString()` is the trimmed join of the non-blank city, region and country. It never ends in a comma or space. |
| IP2Location.Target | GeoServices/GeoIPService.cs:79 | `?ip={ip}&key={key}` reads back as the two pairs `ip` and `key` whenever neither value holds a query delimiter. |
| IP2Location.TargetNotEscaped | GeoServices/GeoIPService.cs:79 | Nothing is escaped: two different (address, key) pairs produce the same request. |
| IPGeolocation.SetCoordinateText | GeoServices/GeoIPService.cs:140-167 | A null or white-space coordinate text leaves the record unchanged. Other text succeeds iff it parses, and then sets that coordinate alone. A failure is a format error. |
| IPGeolocation.CoordinateTextRoundTrip | GeoServices/GeoIPService.cs:140-167 | When parse inverts format, setting the text the getter would return stores the same coordinate. |
| IPGeolocation.ToGeoInfo | GeoServices/GeoIPService.cs:117-179 | The mapping succeeds iff both coordinate texts are blank or parse. `CountryCode2` becomes the country code, a blank coordinate is 0, and the canonical `Timezone` stays null because it is hidden. |
| IPGeolocation.CountryCode2IsCountryCode | GeoServices/GeoIPService.cs:123-133 | Writing `CountryCode2` writes the canonical `CountryCode` and nothing else. |
| IPGeolocation.OmittedLatitudeIsZero | GeoServices/GeoIPService.cs:140-153 | An absent latitude maps exactly like a latitude text that parses to 0. |
| IPGeolocation.Display | GeoServices/GeoIPService.cs:181-209 | `ToString()` is the trimmed join of the non-blank city, district, country and continent. It never ends in a comma or space. |
| IPGeolocation.Target | GeoServices/GeoIPService.cs:233 | `?ip={ip}&apiKey={key}` reads back as the two pairs when neither value holds a query delimiter. |
| IPLocation.Put | GeoServices/GeoIPService.cs:240-257 | Writing a canonical property through the iplocation.net record changes only the view's property, and `CountryCode2` reads what was written to `CountryCode`. |
| IPLocation.SetCountryCode2 | GeoServices/GeoIPService.cs:245-255 | Setting `CountryCode2` sets the canonical `CountryCode` and nothing else. |
| IPLocation.ToGeoInfo | GeoServices/GeoIPService.cs:240-257 | The `GeoInfo` view reads `CountryCode` from `CountryCode2` and the other four properties under their own names. |
| IPLocation.DisplayFollowsCountryName | GeoServices/IGeoIPService.cs:11 | The record keeps the default `ToString()`. A country name written through it is displayed as written. Writes to the other canonical properties, or to `CountryCode2`, leave the display unchanged. |
| IPLocation.Target | GeoServices/GeoIPService.cs:276 | `?ip={ip}` reads back as the single pair `ip` when the address holds no query delimiter. |
| HackerTarget.Piece | GeoServices/GeoIPService.cs:314-317 | `lines[k].Split(':')[1]` succeeds iff line `k` exists and holds a colon. It then gives the text between the first two colons; otherwise it is an index error. |
| HackerTarget.SecondPieceIsBetween | GeoServices/GeoIPService.cs:314-319 | The second piece of a split on `':'` is the text between the first and second colon. |
| HackerTarget.Coordinate | GeoServices/GeoIPService.cs:318-319 | A coordinate line succeeds iff it exists, holds a colon and its second piece parses. A failure is an index or format error. |
| HackerTarget.Parse | GeoServices/GeoIPService.cs:303-323 | A blank body gives a fresh record and no error. Otherwise, with the body split on line breaks, the parse succeeds iff there are six labelled lines and both coordinates parse. It then holds the trimmed texts of lines 0-3 and the parsed texts of lines 4-5. Any failure is an index or format error. |
| HackerTarget.Fields | GeoServices/GeoIPService.cs:312-319 | Reading the lines succeeds iff there are six labelled lines and both coordinates parse. The record then holds the trimmed texts of lines 0-3 and the parsed texts of lines 4-5, and the country code and time zone stay null. |
| HackerTarget.ToGeoInfo | GeoServices/GeoIPService.cs:309-320 | The `GeoInfo` view reads the five inherited properties as the parser filled them. |
| HackerTarget.WellFormedBody | GeoServices/GeoIPService.cs:308-320 | Six `name:value` lines without colons or line breaks parse back to the trimmed values and the parsed coordinates. |
| HackerTarget.AddressCutAtColon | GeoServices/GeoIPService.cs:314 | An address that itself holds a colon, such as IPv6, keeps only the text up to its own first colon. |
| HackerTarget.LabelLine | GeoServices/GeoIPService.cs:314-317 | A `name:text` line, optionally followed by `:more`, yields `text`. |
| HackerTarget.ParsedDisplay | GeoServices/GeoIPService.cs:303-323 | The record keeps the default `ToString()`. A blank response gives a fresh record that displays as null. A response that parses displays the trimmed text between the first two colons of its second line, the country line. |
| HackerTarget.Target | GeoServices/GeoIPService.cs:307 | `?q={ip}` reads back as the single pair `q` when the address holds no query delimiter. |
| IPApiCom.Put | GeoServices/GeoIPService.cs:328-372 | Writing a canonical property through the ip-api.com record changes only that property of the view. `Country`, `Lat` and `Lon` read what was written to the canonical names. |
| IPApiCom.SetCountry | GeoServices/GeoIPService.cs:332-342 | Setting `Country` sets the canonical `CountryName` and nothing else. |
| IPApiCom.SetLat | GeoServices/GeoIPService.cs:347-357 | Setting `Lat` sets the canonical `Latitude` and nothing else. |
| IPApiCom.SetLon | GeoServices/GeoIPService.cs:358-368 | Setting `Lon` sets the canonical `Longitude` and nothing else. |
| IPApiCom.ToGeoInfo | GeoServices/GeoIPService.cs:328-372 | The `GeoInfo` view reads `CountryName` from `Country`, `Latitude` from `Lat`, `Longitude` from `Lon`, and the rest under their own names. |
| IPApiCom.Display | GeoServices/GeoIPService.cs:373-396 | `ToString()` is the trimmed join of the non-blank city, region name and country. The trailing separator after the country is trimmed away. |
| IPApiCo.Put | GeoServices/GeoIPService.cs:423-457 | Writing a canonical property through the ipapi.co record changes only that property of the view, and `Country` reads what was written to `CountryName`. |
| IPApiCo.SetCountry | GeoServices/GeoIPService.cs:431-441 | Setting `Country` sets the canonical `CountryName` and nothing else. |
| IPApiCo.ToGeoInfo | GeoServices/GeoIPService.cs:423-457 | The `GeoInfo` view reads `CountryName` from `Country` and the other four properties under their own names. |
| IPApiCo.Display | GeoServices/GeoIPService.cs:458-480 | `ToString()` is the trimmed join of the non-blank city, region and country. |
| IPApiCo.Target | GeoServices/GeoIPService.cs:500 | Read back on `/`, the target `{ip}/json` is the address's own segments followed by `json`. For an address without `/` that is exactly the two segments `ip` and `json`. |
| IPApiCo.SlashAddsSegment | GeoServices/GeoIPService.cs:500 | Nothing is escaped: an address `a/b` is requested as the three segments `a`, `b` and `json`. |
| FreeIPApi.Display | GeoServices/GeoIPService.cs:531-559 | `ToString()` is the trimmed join of the non-blank city, region, country and continent. |
| FreeIPApi.ToGeoInfo | GeoServices/GeoIPService.cs:515-528 | The `GeoInfo` view reads all five canonical properties under their own names. |
| OpenWeatherMap.ToWeatherInfo | GeoServices/WeatherService.cs:28-30 | The latitude and longitude are `Coord`'s, or 0 without `Coord`. The temperature is `Main.Temp`, or 0 without `Main`. |
| OpenWeatherMap.OnlyCoordAndMainMatter | GeoServices/WeatherService.cs:11-31 | Two records with the same `Coord` and `Main` report the same values, whatever their other properties. |
| OpenWeatherMap.SettersAreInvisible | GeoServices/WeatherService.cs:28-30 | Writing a canonical property through the inherited setter changes nothing reported. |
| OpenWeatherMap.Target | GeoServices/WeatherService.cs:72 | `?lat=..&lon=..&appid=..` reads back as the three pairs when no value holds a query delimiter. |
| OpenMeteo.ToWeatherInfo | GeoServices/WeatherService.cs:78-93 | The latitude and longitude are the stored ones. The temperature is `Current.Temperature2m`, or 0 without `Current`. |
| OpenMeteo.SettersOnStoredFields | GeoServices/WeatherService.cs:78-93 | Writing a coordinate is reported as written. Writing the temperature changes nothing reported. |
| OpenMeteo.Target | GeoServices/WeatherService.cs:186 | The request reads back as exactly four pairs: the two coordinates and the `current` and `daily` lists. There is no units parameter. |
| OpenMeteo.FieldListsClean | GeoServices/WeatherService.cs:186 | The `current` list splits back into its 15 fields and the `daily` list into its 3. Neither holds a query delimiter. |
| OpenMeteo.PlainListReadsBack | GeoServices/WeatherService.cs:186 | A comma-joined list of delimiter-free names holds no query delimiter and splits back into the same names. |
| Services.RequireNonEmpty | GeoServices/GeoIPService.cs:77 | `ThrowIfNullOrEmpty` passes iff the text is neither null nor empty. Null is `ArgumentNullException`, empty is `ArgumentException`, each naming the parameter. |
| Services.RequireNonBlank | GeoServices/WeatherService.cs:60 | `ThrowIfNullOrWhiteSpace` passes iff the text is neither null nor blank. Null is `ArgumentNullException`, blank is `ArgumentException`. |
| Services.GuardsDifferOnWhiteSpace | GeoServices/WeatherService.cs:58-60 | The white-space guard rejects everything the empty guard rejects, with the same error. It rejects in addition exactly the non-empty white-space texts. |
| Services.NewGeoService | GeoServices/GeoIPService.cs:62-73 | A null client fails first. A keyed provider then needs a key that is neither null nor empty; absent options count as a null key, and white space is accepted. Success sets the provider's base address and appends the two default headers. |
| Services.GeoTarget | GeoServices/GeoIPService.cs:75-81 | Each service's target, for addresses and keys free of `&` and `=`: iplocation.net reads back as the single pair `ip`, hackertarget.com as `q`, and the keyed services as `ip` plus `key` or `apiKey`. Read back on `/`, the ip-api.com and freeipapi.com targets are the address's own segments, and the ipapi.co target is those segments followed by `json`. |
| Services.KeyTravelsInQuery | GeoServices/GeoIPService.cs:219-233 | A keyed service's request carries the address as `ip` and its key under `key` or `apiKey`. |
| Services.AddressIsLastSegment | GeoServices/GeoIPService.cs:406-415 | For the path-style services the base address ends in `/`, so the request URL splits into the base address's segments followed by the target's. An address without `/` is the last segment of the URL, or the one before `json` for ipapi.co. |
| Services.Fetch | GeoServices/GeoIPService.cs:303-323 | For each provider, the call after the guard succeeds iff the request yields a record. For hackertarget.com the body must also parse, and for ipgeolocation.io the coordinate texts must parse. It then returns that record's `GeoInfo` view and its `ToString()`. A failure is a transport, format or index error. Index errors come only from hackertarget.com, and format errors only from it and ipgeolocation.io. |
| Services.GetInfo | GeoServices/GeoIPService.cs:75-81 | A null address fails with `ArgumentNullException` and an empty one with `ArgumentException`, before any request. Every other address is sent as the service's target and handled as `Fetch` describes. Argument errors arise in no other case. |
| Services.WhiteSpaceAddressIsSent | GeoServices/GeoIPService.cs:575-582 | A white-space address passes `GetInfo`'s guard, though the white-space guard would reject it. Any failure then comes from the request or the mapping. |
| Services.OneRequestDecides | GeoServices/GeoIPService.cs:75-81 | `GetInfo` depends on the outside world only through its one request: two transports that agree on it give the same outcome. |
| Services.NewWeatherService | GeoServices/WeatherService.cs:56-68 | A null client, then null options, then a null key fail with `ArgumentNullException`. A blank key fails with `ArgumentException`. Open-Meteo needs only the client. |
| Services.WeatherTarget | GeoServices/WeatherService.cs:72 | When the formatted coordinates and the key hold no `&` or `=`, the OpenWeatherMap target reads back as `lat`, `lon` and `appid`. The Open-Meteo target reads back as the coordinates and its two field lists. |
| Services.GetWeather | GeoServices/WeatherService.cs:70-73 | No argument is checked. The result succeeds iff the one request succeeds, and it is the record's projection. |
| Services.WeatherKeyTravelsInQuery | GeoServices/WeatherService.cs:72 | An OpenWeatherMap request carries the configured key as `appid` and the formatted coordinates as `lat` and `lon`. |

## Left out

- HTTP transport, URI resolution against the base address, `Task`, `async` and cancellation tokens: replaced by a function parameter from base address and target to the decoded record. That `GetInfo` and `GetWeather` are deterministic holds because they are functions, so no lemma states it.
- JSON decoding and its naming policies (snake_case, camelCase, `JsonPropertyName`): each provider record is taken as already decoded. A record that decodes to JSON `null` (which `GetFromJsonAsync` returns as null) is not modelled.
- A payload that carries both a canonical key and its alias is not modelled. ipapi.co, for example, sends both `country` and `country_name`, and the decoder keeps whichever it writes last. Each canonical property has one slot per record.
- Number parsing and formatting: `double.Parse` with the invariant culture, `float.Parse` with the current culture (including its rounding to `float`) and the formatting of coordinates into URLs are uninterpreted parameters. No floating-point semantics is modelled.
- `float` and `double` widths: both are `real`, so the `float` temperatures and hackertarget.com's `float` coordinates carry no rounding.
- Reading `options.Value` when the options wrapper exists but its `Value` is null is not modelled. The options objects are modelled without a null `Value`.
- The options classes `GeoIPServiceOptions` and `WeatherServiceOptions` are not part of this model beyond their `ApiKey`.
- `ServiceCollectionExtensions.cs` (dependency-injection registration, with two identical branches) and `HttpContextExtensions.cs` (reading a request header): no logic to state.
- Open-Meteo's `Hourly`, `Daily`, `HourlyUnits` and `DailyUnits` records: their properties are commented out of the response record.
- `CurrencyInfo.ToString()` of freeipapi.com: it is never called by the adapter.
- OpenMeteo.Target: the set of names in the parsed query is fixed through `Params`, and no separate clause lists them.
