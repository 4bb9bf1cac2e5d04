/**
 The seven geolocation services and the two weather services: their
 constructors with the argument guards, the `GetInfo` and `GetWeather`
 operations, and the request each one sends.

 The HTTP call and the JSON decoding are parameters: a `GeoTransport` or
 `WeatherTransport` maps a base address and a request target to the decoded
 record, or to `None` when the request or the decoding fails.
 */
module Services {
  import opened Results
  import opened Text
  import opened Canonical
  import IP2Location
  import IPGeolocation
  import IPLocation
  import HackerTarget
  import IPApiCom
  import IPApiCo
  import FreeIPApi
  import OpenWeatherMap
  import OpenMeteo

  datatype Header = Header(name: string, value: string)

  /** The part of an `HttpClient` a constructor configures. */
  datatype HttpClient = HttpClient(baseAddress: Option<string>, headers: seq<Header>)

  const AcceptJson: Header := Header("Accept", "application/json")
  const CacheForAnHour: Header := Header("Cache-Control", "public, max-age=3600")

  /** `GeoIPServiceOptions`, reduced to the property the services read. */
  datatype GeoIPServiceOptions = GeoIPServiceOptions(apiKey: Option<string>)

  /** `WeatherServiceOptions`, reduced to the property the service reads. */
  datatype WeatherServiceOptions = WeatherServiceOptions(apiKey: Option<string>)

  /** Points a client at a provider and adds the two default headers every constructor adds. */
  function Configure(client: HttpClient, base: string): HttpClient {
    HttpClient(Some(base), client.headers + [AcceptJson, CacheForAnHour])
  }

  // ---------------------------------------------------------------- guards

  /** `ArgumentException.ThrowIfNullOrEmpty`. */
  function RequireNonEmpty(v: Option<string>, name: string): (r: Result<string>)
    ensures r.Ok? <==> !IsNullOrEmpty(v)
    ensures r.Ok? ==> r.value == v.value
    ensures v.None? ==> r == Err(ArgumentNull(name))
    ensures v == Some("") ==> r == Err(ArgumentInvalid(name))
  {
    match v
    case None => Err(ArgumentNull(name))
    case Some(s) => if s == "" then Err(ArgumentInvalid(name)) else Ok(s)
  }

  /** `ArgumentException.ThrowIfNullOrWhiteSpace`. */
  function RequireNonBlank(v: Option<string>, name: string): (r: Result<string>)
    ensures r.Ok? <==> !IsNullOrWhiteSpace(v)
    ensures r.Ok? ==> r.value == v.value
    ensures v.None? ==> r == Err(ArgumentNull(name))
    ensures v.Some? && IsBlank(v.value) ==> r == Err(ArgumentInvalid(name))
  {
    match v
    case None => Err(ArgumentNull(name))
    case Some(s) => if IsBlank(s) then Err(ArgumentInvalid(name)) else Ok(s)
  }

  /**
   The two guards differ exactly on white space: the blank guard refuses
   everything the empty guard refuses, and in addition every non-empty
   white-space text, which the empty guard lets through.
   */
  lemma GuardsDifferOnWhiteSpace(v: Option<string>, name: string)
    ensures RequireNonEmpty(v, name).Err? ==> RequireNonBlank(v, name) == RequireNonEmpty(v, name)
    ensures RequireNonEmpty(v, name).Ok? && RequireNonBlank(v, name).Err? <==>
      v.Some? && v.value != "" && IsBlank(v.value)
  {
  }

  // ------------------------------------------------------ geolocation services

  /** The seven `IGeoIPService` implementations. */
  datatype GeoProvider =
    | Ip2LocationIo     // IP2LocationGeoIPService
    | IpGeolocationIo   // IPGeolocationGeoIPService
    | IpLocationNet     // IPLocationGeoIPService
    | HackerTargetCom   // HackerTargetGeoIPService
    | IpApiCom          // IP_ApiGeoService
    | IpApiCo           // IPApiGeoIPService
    | FreeIpApiCom      // FreeIPApiGeoIPService

  /** The providers whose constructor takes options and whose requests carry a key. */
  predicate Keyed(p: GeoProvider) {
    p == Ip2LocationIo || p == IpGeolocationIo
  }

  function GeoBaseAddress(p: GeoProvider): string {
    match p
    case Ip2LocationIo => "https://api.ip2location.io/"
    case IpGeolocationIo => "https://api.ipgeolocation.io/ipgeo"
    case IpLocationNet => "https://api.iplocation.net/"
    case HackerTargetCom => "https://api.hackertarget.com/ipgeo/"
    case IpApiCom => "http://ip-api.com/json/"
    case IpApiCo => "https://ipapi.co/"
    case FreeIpApiCom => "https://freeipapi.com/api/json/"
  }

  /** A constructed service: its provider, its configured client and, for a keyed provider, its key. */
  datatype GeoService = GeoService(provider: GeoProvider, client: HttpClient, apiKey: Option<string>)

  /** What every successfully constructed service satisfies. */
  predicate ValidGeo(svc: GeoService) {
    && svc.client.baseAddress == Some(GeoBaseAddress(svc.provider))
    && (Keyed(svc.provider) <==> svc.apiKey.Some?)
    && (svc.apiKey.Some? ==> svc.apiKey.value != "")
  }

  /**
   The constructors. A null client fails first. A keyed provider then
   requires the options' `ApiKey` to be neither null nor empty (absent
   options count as a null key); a white-space key is accepted. The
   other providers take no options, and `options` is ignored for them.
   */
  function NewGeoService(p: GeoProvider, client: Option<HttpClient>, options: Option<GeoIPServiceOptions>): (r: Result<GeoService>)
    ensures client.None? ==> r == Err(ArgumentNull("httpClient"))
    ensures client.Some? && !Keyed(p) ==> r.Ok? && r.value.apiKey.None?
    ensures client.Some? && Keyed(p) ==>
      var key := if options.Some? then options.value.apiKey else None;
      && (r.Ok? <==> !IsNullOrEmpty(key))
      && (key.None? ==> r == Err(ArgumentNull("ApiKey")))
      && (key == Some("") ==> r == Err(ArgumentInvalid("ApiKey")))
      && (r.Ok? ==> r.value.apiKey == key)
    ensures r.Ok? ==> ValidGeo(r.value) && r.value.provider == p
    ensures r.Ok? ==> r.value.client.headers == client.value.headers + [AcceptJson, CacheForAnHour]
  {
    if client.None? then Err(ArgumentNull("httpClient"))
    else if Keyed(p) then
      var key :- RequireNonEmpty(if options.Some? then options.value.apiKey else None, "ApiKey");
      Ok(GeoService(p, Configure(client.value, GeoBaseAddress(p)), Some(key)))
    else Ok(GeoService(p, Configure(client.value, GeoBaseAddress(p)), None))
  }

  /**
   The request target of `GetInfo`, relative to the base address: each
   provider's interpolated string, the address and the key inserted
   verbatim. The query-style targets read back as their pairs; the
   path-style targets read back, segment by segment, as the address's own
   segments (followed by `json` for ipapi.co).
   */
  function GeoTarget(svc: GeoService, ip: string): (t: string)
    requires ValidGeo(svc)
    ensures svc.provider == IpApiCom || svc.provider == FreeIpApiCom ==> Split(t, '/') == Split(ip, '/')
    ensures svc.provider == IpApiCo ==> Split(t, '/') == Split(ip, '/') + ["json"]
    ensures svc.provider == IpLocationNet && Clean(ip) ==> ParseQuery(t) == Some([Param("ip", ip)])
    ensures svc.provider == HackerTargetCom && Clean(ip) ==> ParseQuery(t) == Some([Param("q", ip)])
    ensures Keyed(svc.provider) && Clean(ip) && Clean(svc.apiKey.value) ==>
      ParseQuery(t) == Some([Param("ip", ip), Param(KeyName(svc.provider), svc.apiKey.value)])
  {
    SplitWhole(ip, '/');
    match svc.provider
    case Ip2LocationIo => IP2Location.Target(ip, svc.apiKey.value)
    case IpGeolocationIo => IPGeolocation.Target(ip, svc.apiKey.value)
    case IpLocationNet => IPLocation.Target(ip)
    case HackerTargetCom => HackerTarget.Target(ip)
    case IpApiCom => ip
    case IpApiCo => IPApiCo.Target(ip)
    case FreeIpApiCom => ip
  }

  /**
   A keyed service sends its key as a query parameter of its own name, and
   the address as `ip`, whenever neither holds a query delimiter.
   */
  lemma KeyTravelsInQuery(svc: GeoService, ip: string)
    requires ValidGeo(svc) && Keyed(svc.provider)
    requires Clean(ip) && Clean(svc.apiKey.value)
    ensures ParseQuery(GeoTarget(svc, ip)).Some?
    ensures Param("ip", ip) in ParseQuery(GeoTarget(svc, ip)).value
    ensures Param(KeyName(svc.provider), svc.apiKey.value) in ParseQuery(GeoTarget(svc, ip)).value
  {
    var ps := ParseQuery(GeoTarget(svc, ip)).value;
    assert ps[0] == Param("ip", ip);
    assert ps[1] == Param(KeyName(svc.provider), svc.apiKey.value);
  }

  /** The services that put the address in the path rather than in a query. */
  predicate PathStyle(p: GeoProvider) {
    p == IpApiCom || p == IpApiCo || p == FreeIpApiCom
  }

  /**
   The request URL of a path-style service is its base address, which ends
   in `'/'`, followed by the target. An address without `'/'` is therefore
   the last path segment of the URL (the one before `json` for ipapi.co).
   */
  lemma AddressIsLastSegment(svc: GeoService, ip: string)
    requires ValidGeo(svc) && PathStyle(svc.provider)
    requires '/' !in ip
    ensures var base := GeoBaseAddress(svc.provider);
      var segs := Split(base + GeoTarget(svc, ip), '/');
      && |base| > 0 && base[|base| - 1] == '/'
      && segs == Split(base[..|base| - 1], '/') + Split(GeoTarget(svc, ip), '/')
      && (svc.provider != IpApiCo ==> segs[|segs| - 1] == ip)
      && (svc.provider == IpApiCo ==> segs[|segs| - 2..] == [ip, "json"])
  {
    var base := GeoBaseAddress(svc.provider);
    var t := GeoTarget(svc, ip);
    UrlSegments(base, t);
    SplitWhole(ip, '/');
  }

  /** A base address ending in `'/'` contributes its segments before those of the target. */
  lemma UrlSegments(base: string, t: string)
    requires |base| > 0 && base[|base| - 1] == '/'
    ensures Split(base + t, '/') == Split(base[..|base| - 1], '/') + Split(t, '/')
  {
    assert base + t == base[..|base| - 1] + ['/'] + t;
    SplitAround(base[..|base| - 1], t, '/');
  }

  /** The query parameter that carries the key. */
  function KeyName(p: GeoProvider): string
    requires Keyed(p)
  {
    if p == Ip2LocationIo then "key" else "apiKey"
  }

  /**
   The HTTP call and decoding of each provider: given the base address and
   the target, the decoded record, or `None` when the call or the decoding
   fails. `text` is `GetStringAsync`.
   */
  datatype GeoTransport = GeoTransport(
    ip2location: (string, string) -> Option<IP2Location.Record>,
    ipgeolocation: (string, string) -> Option<IPGeolocation.Record>,
    iplocation: (string, string) -> Option<IPLocation.Record>,
    ipapicom: (string, string) -> Option<IPApiCom.Record>,
    ipapico: (string, string) -> Option<IPApiCo.Record>,
    freeipapi: (string, string) -> Option<FreeIPApi.Record>,
    text: (string, string) -> Option<string>)

  /**
   The number parsers: `culture` is `double.Parse` with the invariant
   culture, `current` is `float.Parse` with the current culture, widened to
   `double`.
   */
  datatype Numbers = Numbers(culture: string -> Option<real>, current: string -> Option<real>)

  /** The returned object seen through `GeoInfo`: its five properties and its `ToString()`. */
  datatype GeoView = GeoView(info: GeoInfo, display: Option<string>)

  function Lift<R>(fetched: Option<R>): (r: Result<R>)
    ensures r.Ok? <==> fetched.Some?
    ensures r.Ok? ==> r.value == fetched.value
    ensures r.Err? ==> r.error == Transport
  {
    match fetched
    case None => Err(Transport)
    case Some(x) => Ok(x)
  }

  /** Whether two transports give the same outcome for one provider, base address and target. */
  predicate AgreeAt(a: GeoTransport, b: GeoTransport, p: GeoProvider, base: string, t: string) {
    match p
    case Ip2LocationIo => a.ip2location(base, t) == b.ip2location(base, t)
    case IpGeolocationIo => a.ipgeolocation(base, t) == b.ipgeolocation(base, t)
    case IpLocationNet => a.iplocation(base, t) == b.iplocation(base, t)
    case HackerTargetCom => a.text(base, t) == b.text(base, t)
    case IpApiCom => a.ipapicom(base, t) == b.ipapicom(base, t)
    case IpApiCo => a.ipapico(base, t) == b.ipapico(base, t)
    case FreeIpApiCom => a.freeipapi(base, t) == b.freeipapi(base, t)
  }

  /**
   The work after the address guard: one request for the target `t` at
   the provider's base address, then the provider's mapping. For each provider the call succeeds exactly when the request
   yields a record (for hackertarget.com, a body that parses; for
   ipgeolocation.io, coordinate texts that parse), and then reports that
   record's canonical view and its `ToString()`.
   */
  function Fetch(p: GeoProvider, t: string, net: GeoTransport, numbers: Numbers): (r: Result<GeoView>)
    ensures p == Ip2LocationIo ==>
      var fetched := net.ip2location(GeoBaseAddress(p), t);
      && (r.Ok? <==> fetched.Some?)
      && (r.Ok? ==> r.value == GeoView(IP2Location.ToGeoInfo(fetched.value), Some(IP2Location.Display(fetched.value))))
    ensures p == IpGeolocationIo ==>
      var fetched := net.ipgeolocation(GeoBaseAddress(p), t);
      && (r.Ok? <==> fetched.Some? && IPGeolocation.ToGeoInfo(fetched.value, numbers.culture).Ok?)
      && (r.Ok? ==> r.value == GeoView(IPGeolocation.ToGeoInfo(fetched.value, numbers.culture).value,
                                       Some(IPGeolocation.Display(fetched.value))))
    ensures p == IpLocationNet ==>
      var fetched := net.iplocation(GeoBaseAddress(p), t);
      && (r.Ok? <==> fetched.Some?)
      && (r.Ok? ==> r.value == GeoView(IPLocation.ToGeoInfo(fetched.value), IPLocation.Display(fetched.value)))
    ensures p == HackerTargetCom ==>
      var body := net.text(GeoBaseAddress(p), t);
      && (r.Ok? <==> body.Some? && HackerTarget.Parse(body.value, numbers.current).Ok?)
      && (r.Ok? ==> r.value == GeoView(HackerTarget.ToGeoInfo(HackerTarget.Parse(body.value, numbers.current).value),
                                       HackerTarget.Display(HackerTarget.Parse(body.value, numbers.current).value)))
    ensures p == IpApiCom ==>
      var fetched := net.ipapicom(GeoBaseAddress(p), t);
      && (r.Ok? <==> fetched.Some?)
      && (r.Ok? ==> r.value == GeoView(IPApiCom.ToGeoInfo(fetched.value), Some(IPApiCom.Display(fetched.value))))
    ensures p == IpApiCo ==>
      var fetched := net.ipapico(GeoBaseAddress(p), t);
      && (r.Ok? <==> fetched.Some?)
      && (r.Ok? ==> r.value == GeoView(IPApiCo.ToGeoInfo(fetched.value), Some(IPApiCo.Display(fetched.value))))
    ensures p == FreeIpApiCom ==>
      var fetched := net.freeipapi(GeoBaseAddress(p), t);
      && (r.Ok? <==> fetched.Some?)
      && (r.Ok? ==> r.value == GeoView(FreeIPApi.ToGeoInfo(fetched.value), Some(FreeIPApi.Display(fetched.value))))
    ensures r.Err? ==> r.error in {Transport, Format, IndexOutOfRange}
    ensures r.Err? && r.error == IndexOutOfRange ==> p == HackerTargetCom
    ensures r.Err? && r.error == Format ==> p in {IpGeolocationIo, HackerTargetCom}
  {
    var base := GeoBaseAddress(p);
    match p
    case Ip2LocationIo =>
      var rec :- Lift(net.ip2location(base, t));
      Ok(GeoView(IP2Location.ToGeoInfo(rec), Some(IP2Location.Display(rec))))
    case IpGeolocationIo =>
      var rec :- Lift(net.ipgeolocation(base, t));
      var g :- IPGeolocation.ToGeoInfo(rec, numbers.culture);
      Ok(GeoView(g, Some(IPGeolocation.Display(rec))))
    case IpLocationNet =>
      var rec :- Lift(net.iplocation(base, t));
      Ok(GeoView(IPLocation.ToGeoInfo(rec), IPLocation.Display(rec)))
    case HackerTargetCom =>
      var body :- Lift(net.text(base, t));
      var rec :- HackerTarget.Parse(body, numbers.current);
      Ok(GeoView(HackerTarget.ToGeoInfo(rec), HackerTarget.Display(rec)))
    case IpApiCom =>
      var rec :- Lift(net.ipapicom(base, t));
      Ok(GeoView(IPApiCom.ToGeoInfo(rec), Some(IPApiCom.Display(rec))))
    case IpApiCo =>
      var rec :- Lift(net.ipapico(base, t));
      Ok(GeoView(IPApiCo.ToGeoInfo(rec), Some(IPApiCo.Display(rec))))
    case FreeIpApiCom =>
      var rec :- Lift(net.freeipapi(base, t));
      Ok(GeoView(FreeIPApi.ToGeoInfo(rec), Some(FreeIPApi.Display(rec))))
  }

  /**
   `GetInfo`. A null address fails with `ArgumentNullException`, an empty
   one with `ArgumentException`; any other address, white space included,
   is sent unchanged.
   */
  function GetInfo(svc: GeoService, ip: Option<string>, net: GeoTransport, numbers: Numbers): (r: Result<GeoView>)
    requires ValidGeo(svc)
    ensures ip.None? ==> r == Err(ArgumentNull("ipAddress"))
    ensures ip == Some("") ==> r == Err(ArgumentInvalid("ipAddress"))
    ensures !IsNullOrEmpty(ip) ==> r == Fetch(svc.provider, GeoTarget(svc, ip.value), net, numbers)
    ensures r.Err? && r.error.ArgumentNull? ==> ip.None?
    ensures r.Err? && r.error.ArgumentInvalid? ==> ip == Some("")
  {
    var address :- RequireNonEmpty(ip, "ipAddress");
    Fetch(svc.provider, GeoTarget(svc, address), net, numbers)
  }

  /**
   A white-space address passes the guard: the request goes out, and any
   failure comes from the provider's side, not from the service.
   */
  lemma WhiteSpaceAddressIsSent(svc: GeoService, ip: string, net: GeoTransport, numbers: Numbers)
    requires ValidGeo(svc)
    requires ip != "" && IsBlank(ip)
    ensures GetInfo(svc, Some(ip), net, numbers) == Fetch(svc.provider, GeoTarget(svc, ip), net, numbers)
    ensures RequireNonBlank(Some(ip), "ipAddress").Err?
    ensures GetInfo(svc, Some(ip), net, numbers).Err? ==>
      GetInfo(svc, Some(ip), net, numbers).error in {Transport, Format, IndexOutOfRange}
  {
  }

  /**
   `GetInfo` depends on the outside world only through the one request it
   sends: two transports that agree on that request give the same outcome.
   */
  lemma OneRequestDecides(svc: GeoService, ip: string, a: GeoTransport, b: GeoTransport, numbers: Numbers)
    requires ValidGeo(svc)
    requires AgreeAt(a, b, svc.provider, GeoBaseAddress(svc.provider), GeoTarget(svc, ip))
    ensures GetInfo(svc, Some(ip), a, numbers) == GetInfo(svc, Some(ip), b, numbers)
  {
  }

  // ---------------------------------------------------------- weather services

  /** The two `IWeatherService` implementations. */
  datatype WeatherProvider =
    | OpenWeatherMapOrg   // OpenWeatherMapWeatherService
    | OpenMeteoCom        // OpenMeteoWeatherService

  function WeatherBaseAddress(p: WeatherProvider): string {
    match p
    case OpenWeatherMapOrg => "https://api.openweathermap.org/data/2.5/weather"
    case OpenMeteoCom => "https://api.open-meteo.com/v1/forecast?"
  }

  datatype WeatherService = WeatherService(provider: WeatherProvider, client: HttpClient, apiKey: Option<string>)

  predicate ValidWeather(svc: WeatherService) {
    && svc.client.baseAddress == Some(WeatherBaseAddress(svc.provider))
    && (svc.provider == OpenWeatherMapOrg <==> svc.apiKey.Some?)
    && (svc.apiKey.Some? ==> !IsBlank(svc.apiKey.value))
  }

  /**
   The constructors. A null client fails first. OpenWeatherMap then
   requires options, and an `ApiKey` that is neither null, empty nor white
   space. Open-Meteo takes no options, and `options` is ignored for it.
   */
  function NewWeatherService(p: WeatherProvider, client: Option<HttpClient>, options: Option<WeatherServiceOptions>): (r: Result<WeatherService>)
    ensures client.None? ==> r == Err(ArgumentNull("httpClient"))
    ensures client.Some? && p == OpenMeteoCom ==> r.Ok? && r.value.apiKey.None?
    ensures client.Some? && p == OpenWeatherMapOrg ==>
      && (options.None? ==> r == Err(ArgumentNull("options")))
      && (options.Some? ==>
            && (r.Ok? <==> !IsNullOrWhiteSpace(options.value.apiKey))
            && (options.value.apiKey.None? ==> r == Err(ArgumentNull("ApiKey")))
            && (options.value.apiKey.Some? && IsBlank(options.value.apiKey.value) ==>
                  r == Err(ArgumentInvalid("ApiKey")))
            && (r.Ok? ==> r.value.apiKey == options.value.apiKey))
    ensures r.Ok? ==> ValidWeather(r.value) && r.value.provider == p
    ensures r.Ok? ==> r.value.client.headers == client.value.headers + [AcceptJson, CacheForAnHour]
  {
    if client.None? then Err(ArgumentNull("httpClient"))
    else if p == OpenWeatherMapOrg then
      if options.None? then Err(ArgumentNull("options"))
      else
        var key :- RequireNonBlank(options.value.apiKey, "ApiKey");
        Ok(WeatherService(p, Configure(client.value, WeatherBaseAddress(p)), Some(key)))
    else Ok(WeatherService(p, Configure(client.value, WeatherBaseAddress(p)), None))
  }

  /**
   The request target of `GetWeather`; `format` is the current-culture
   `double` formatting. When the formatted coordinates (and the key) hold
   no query delimiter, the OpenWeatherMap target reads back as `lat`, `lon`
   and `appid`, and the Open-Meteo one as the coordinates and the two field
   lists.
   */
  function WeatherTarget(svc: WeatherService, lat: real, lon: real, format: real -> string): (t: string)
    requires ValidWeather(svc)
    ensures svc.provider == OpenWeatherMapOrg && Clean(format(lat)) && Clean(format(lon)) && Clean(svc.apiKey.value) ==>
      ParseQuery(t) == Some([Param("lat", format(lat)), Param("lon", format(lon)), Param("appid", svc.apiKey.value)])
    ensures svc.provider == OpenMeteoCom && Clean(format(lat)) && Clean(format(lon)) ==>
      ParseQuery(t) == Some(OpenMeteo.Params(format(lat), format(lon)))
  {
    match svc.provider
    case OpenWeatherMapOrg => OpenWeatherMap.Target(format(lat), format(lon), svc.apiKey.value)
    case OpenMeteoCom => OpenMeteo.Target(format(lat), format(lon))
  }

  datatype WeatherTransport = WeatherTransport(
    openWeatherMap: (string, string) -> Option<OpenWeatherMap.Record>,
    openMeteo: (string, string) -> Option<OpenMeteo.Record>)

  /**
   `GetWeather`: no argument is checked; the coordinates are formatted into
   the target and the decoded record is reported through `WeatherInfo`.
   The only failure is the request's.
   */
  function GetWeather(svc: WeatherService, lat: real, lon: real, net: WeatherTransport, format: real -> string): (r: Result<WeatherInfo>)
    requires ValidWeather(svc)
    ensures var base := WeatherBaseAddress(svc.provider);
      var t := WeatherTarget(svc, lat, lon, format);
      && (svc.provider == OpenWeatherMapOrg ==>
            && (r.Ok? <==> net.openWeatherMap(base, t).Some?)
            && (r.Ok? ==> r.value == OpenWeatherMap.ToWeatherInfo(net.openWeatherMap(base, t).value)))
      && (svc.provider == OpenMeteoCom ==>
            && (r.Ok? <==> net.openMeteo(base, t).Some?)
            && (r.Ok? ==> r.value == OpenMeteo.ToWeatherInfo(net.openMeteo(base, t).value)))
    ensures r.Err? ==> r.error == Transport
  {
    var base := WeatherBaseAddress(svc.provider);
    var t := WeatherTarget(svc, lat, lon, format);
    match svc.provider
    case OpenWeatherMapOrg =>
      var rec :- Lift(net.openWeatherMap(base, t));
      Ok(OpenWeatherMap.ToWeatherInfo(rec))
    case OpenMeteoCom =>
      var rec :- Lift(net.openMeteo(base, t));
      Ok(OpenMeteo.ToWeatherInfo(rec))
  }

  /**
   An OpenWeatherMap request carries the configured key as `appid`, and the
   formatted coordinates as `lat` and `lon`, whenever none of them holds a
   query delimiter.
   */
  lemma WeatherKeyTravelsInQuery(svc: WeatherService, lat: real, lon: real, format: real -> string)
    requires ValidWeather(svc) && svc.provider == OpenWeatherMapOrg
    requires Clean(format(lat)) && Clean(format(lon)) && Clean(svc.apiKey.value)
    ensures ParseQuery(WeatherTarget(svc, lat, lon, format))
         == Some([Param("lat", format(lat)), Param("lon", format(lon)), Param("appid", svc.apiKey.value)])
  {
  }
}
