/** The QWeather client: endpoint configuration, the choice of forecast window, a TTL cache of
    forecasts keyed by city and window, and the travel advice derived from one day's weather.
    Clock readings and HTTP replies are parameters; a `None` reply stands for a request that
    raised. */
module Weather {
  import opened Wrappers
  import opened Text

  /** Python's `a or b` on two optional strings: `a` when it is a non-empty string, else `b`. */
  function Or(a: Option<string>, b: Option<string>): (r: Option<string>)
    ensures r == a || r == b
    ensures (r.Some? && r.value != "") <==> (a.Some? && a.value != "") || (b.Some? && b.value != "")
  {
    if a.Some? && a.value != "" then a else b
  }

  // ---------------------------------------------------------------------------------------
  // Forecast windows
  // ---------------------------------------------------------------------------------------

  /** The forecast lengths the provider offers. */
  datatype Window = D3 | D7 | D10 | D15 | D30 {
    /** Number of days the window covers. */
    function Days(): nat {
      match this
      case D3 => 3
      case D7 => 7
      case D10 => 10
      case D15 => 15
      case D30 => 30
    }

    /** The path parameter naming the window. */
    function Param(): string {
      match this
      case D3 => "3d"
      case D7 => "7d"
      case D10 => "10d"
      case D15 => "15d"
      case D30 => "30d"
    }
  }

  /** The smallest window covering `requiredDays`, or the longest one when none does. */
  function OptimalWindow(requiredDays: int): (w: Window)
    ensures requiredDays <= 30 ==> requiredDays <= w.Days()
    ensures requiredDays > 30 ==> w == D30
    ensures forall v: Window :: requiredDays <= v.Days() ==> w.Days() <= v.Days()
  {
    if requiredDays <= 3 then D3
    else if requiredDays <= 7 then D7
    else if requiredDays <= 10 then D10
    else if requiredDays <= 15 then D15
    else D30
  }

  /** Needing more days never selects a shorter window. */
  lemma OptimalWindowMonotone(a: int, b: int)
    requires a <= b
    ensures OptimalWindow(a).Days() <= OptimalWindow(b).Days()
  {
  }

  /** Windows are told apart by their parameter. */
  lemma WindowParamInjective(v: Window, w: Window)
    requires v.Param() == w.Param()
    ensures v == w
  {
  }

  /** The forecast endpoint of a window. */
  function ForecastUrl(baseUrl: string, w: Window): (u: string)
    ensures StartsWith(u, baseUrl) && EndsWith(u, "/v7/weather/" + w.Param())
    ensures |u| == |baseUrl| + |"/v7/weather/" + w.Param()|
  {
    baseUrl + "/v7/weather/" + w.Param()
  }

  /** Different windows are fetched from different URLs. */
  lemma {:induction false} ForecastUrlsDistinct(baseUrl: string, v: Window, w: Window)
    requires v != w
    ensures ForecastUrl(baseUrl, v) != ForecastUrl(baseUrl, w)
  {
    var n := |baseUrl| + |"/v7/weather/"|;
    assert ForecastUrl(baseUrl, v)[n..] == v.Param();
    assert ForecastUrl(baseUrl, w)[n..] == w.Param();
    if ForecastUrl(baseUrl, v) == ForecastUrl(baseUrl, w) {
      WindowParamInjective(v, w);
    }
  }

  // ---------------------------------------------------------------------------------------
  // Endpoint configuration
  // ---------------------------------------------------------------------------------------

  const DefaultBaseUrl: string := "https://devapi.qweather.com"
  const DefaultCityLookupUrl: string := "https://geoapi.qweather.com/v2/city/lookup"
  const CityLookupPath: string := "/geo/v2/city/lookup"

  /** The two URLs the client talks to. */
  datatype Endpoints = Endpoints(baseUrl: string, cityLookupUrl: string)

  /** The host starts with an explicit scheme. */
  predicate HasScheme(s: string) {
    StartsWith(s, "http://") || StartsWith(s, "https://")
  }

  /** The configured host: the settings value, else the environment value, else empty. */
  function ConfiguredHost(fromSettings: Option<string>, fromEnv: Option<string>): (h: string)
    ensures fromSettings.Some? && fromSettings.value != "" ==> h == fromSettings.value
    ensures !(fromSettings.Some? && fromSettings.value != "") && fromEnv.Some? ==> h == fromEnv.value
    ensures (fromSettings.None? || fromSettings.value == "") && fromEnv.None? ==> h == ""
  {
    if fromSettings.Some? && fromSettings.value != "" then fromSettings.value
    else if fromEnv.Some? then fromEnv.value
    else ""
  }

  /** Endpoints from the configured host: the public defaults when the stripped host is empty;
      otherwise the host with trailing slashes removed when it names a scheme, or with
      `https://` in front when it does not, and the city lookup under that base. */
  function NormaliseHost(configured: string): (e: Endpoints)
    ensures Strip(configured) == "" ==> e == Endpoints(DefaultBaseUrl, DefaultCityLookupUrl)
    ensures Strip(configured) != "" ==> e.cityLookupUrl == e.baseUrl + CityLookupPath
    ensures Strip(configured) != "" && HasScheme(Strip(configured)) ==>
              e.baseUrl == RStripChar(Strip(configured), '/') && !EndsWith(e.baseUrl, "/")
    ensures Strip(configured) != "" && !HasScheme(Strip(configured)) ==>
              e.baseUrl == "https://" + Strip(configured) && HasScheme(e.baseUrl)
  {
    var host := Strip(configured);
    if host == "" then Endpoints(DefaultBaseUrl, DefaultCityLookupUrl)
    else
      var base := if HasScheme(host) then RStripChar(host, '/') else "https://" + host;
      assert "https://" + host == ("https://" + host)[..|"https://"|] + host;
      Endpoints(base, base + CityLookupPath)
  }

  /** A base URL that came out of normalisation with its scheme intact, no surrounding
      whitespace and no trailing slash normalises to itself: configuring it again changes
      nothing. (A bare host ending in '/' keeps that slash and is not such a fixed point.) */
  lemma {:induction false} NormaliseHostFixedPoint(configured: string)
    requires Strip(configured) != ""
    requires HasScheme(NormaliseHost(configured).baseUrl) && Trimmed(NormaliseHost(configured).baseUrl)
    requires !EndsWith(NormaliseHost(configured).baseUrl, "/")
    ensures NormaliseHost(NormaliseHost(configured).baseUrl) == NormaliseHost(configured)
  {
    var base := NormaliseHost(configured).baseUrl;
    StripTrimmed(base);
    assert base[|base| - 1] != '/';
    assert RStripChar(base, '/') == base;
  }

  // ---------------------------------------------------------------------------------------
  // Forecast records and the TTL cache
  // ---------------------------------------------------------------------------------------

  /** One entry of the daily forecast, as the provider sends it. */
  datatype DailyEntry = DailyEntry(fields: map<string, string>)

  /** A forecast result dictionary; the client rewrites its `daily` list in place. */
  class ForecastResult {
    var location: map<string, string>
    var daily: seq<DailyEntry>
    var updateTime: Option<string>
    var fxLink: Option<string>

    constructor (location: map<string, string>, daily: seq<DailyEntry>, updateTime: Option<string>, fxLink: Option<string>)
      ensures this.location == location && this.daily == daily
      ensures this.updateTime == updateTime && this.fxLink == fxLink
    {
      this.location := location;
      this.daily := daily;
      this.updateTime := updateTime;
      this.fxLink := fxLink;
    }
  }

  /** A cache slot: when it was written and the result it holds. */
  datatype CacheEntry = CacheEntry(ts: real, data: ForecastResult)

  /** How long a cached forecast is served, in seconds. */
  const CacheTtl: real := 1800.0

  /** The cache key of a city and window. */
  function ForecastCacheKey(city: string, w: Window): string {
    "forecast:" + city + ":" + w.Param()
  }

  /** Keys never collide: the window parameter holds no ':', so the key determines both the
      city and the window. */
  lemma {:induction false} ForecastCacheKeyInjective(c1: string, w1: Window, c2: string, w2: Window)
    requires ForecastCacheKey(c1, w1) == ForecastCacheKey(c2, w2)
    ensures c1 == c2 && w1 == w2
  {
    var k := ForecastCacheKey(c1, w1);
    var p1, p2 := w1.Param(), w2.Param();
    assert k == "forecast:" + c1 + ":" + p1;
    assert k == "forecast:" + c2 + ":" + p2;
    assert k[|k| - |p1|..] == p1 && k[|k| - |p1| - 1] == ':';
    assert k[|k| - |p2|..] == p2 && k[|k| - |p2| - 1] == ':';
    assert p1 == p2;
    WindowParamInjective(w1, w2);
    assert k[..|k| - |p1| - 1] == "forecast:" + c1;
    assert k[..|k| - |p2| - 1] == "forecast:" + c2;
    assert c1 == ("forecast:" + c1)[|"forecast:"|..];
    assert c2 == ("forecast:" + c2)[|"forecast:"|..];
  }

  /** The outcome of a cache read: the result served, if any, and the cache afterwards. */
  datatype CacheRead = CacheRead(hit: Option<ForecastResult>, cache: map<string, CacheEntry>)

  /** A cache read at time `now`: an entry at most `ttl` seconds old is served and the cache
      kept; an older entry is dropped and nothing is served; a missing key serves nothing. */
  function ReadCache(cache: map<string, CacheEntry>, key: string, now: real, ttl: real): (r: CacheRead)
    ensures r.hit.Some? <==> key in cache && now - cache[key].ts <= ttl
    ensures r.hit.Some? ==> r.hit.value == cache[key].data && r.cache == cache
    ensures r.hit.None? ==> r.cache == cache - {key}
  {
    if key in cache && now - cache[key].ts <= ttl then CacheRead(Some(cache[key].data), cache)
    else CacheRead(None, cache - {key})
  }

  /** What was just written is served until `ttl` seconds have passed. */
  lemma WriteThenRead(cache: map<string, CacheEntry>, key: string, data: ForecastResult, t: real, now: real, ttl: real)
    requires now - t <= ttl
    ensures ReadCache(cache[key := CacheEntry(t, data)], key, now, ttl).hit == Some(data)
  {
  }

  /** Once an entry has expired, later reads miss until the key is written again. */
  lemma ExpiredStaysGone(cache: map<string, CacheEntry>, key: string, now: real, later: real, ttl: real)
    requires key in cache && now - cache[key].ts > ttl
    ensures ReadCache(ReadCache(cache, key, now, ttl).cache, key, later, ttl).hit.None?
  {
  }

  /** A read changes no other key. */
  lemma ReadKeepsOtherKeys(cache: map<string, CacheEntry>, key: string, other: string, now: real, ttl: real)
    requires other != key
    ensures (other in ReadCache(cache, key, now, ttl).cache) <==> (other in cache)
    ensures other in cache ==> ReadCache(cache, key, now, ttl).cache[other] == cache[other]
  {
  }

  // ---------------------------------------------------------------------------------------
  // Provider replies
  // ---------------------------------------------------------------------------------------

  /** Body of the city-lookup reply: `code` and the `id` of each location found. */
  datatype LookupBody = LookupBody(code: Option<string>, locationIds: seq<Option<string>>)

  /** A city-lookup reply: HTTP status and the decoded body (`None` when it is not JSON). */
  datatype LookupReply = LookupReply(status: int, body: Option<LookupBody>)

  /** Body of the forecast reply. */
  datatype ForecastBody = ForecastBody(
    code: Option<string>,
    location: Option<map<string, string>>,
    daily: seq<DailyEntry>,
    updateTime: Option<string>,
    fxLink: Option<string>)

  /** A forecast reply: HTTP status and the decoded body (`None` when it is not JSON). */
  datatype ForecastReply = ForecastReply(status: int, body: Option<ForecastBody>)

  /** The location id found by a city lookup: only from an HTTP 200, code "200" reply with at
      least one location, and then the first location's id (which may be absent). */
  function CityLookupId(reply: Option<LookupReply>): (id: Option<string>)
    ensures id.Some? ==> reply.Some? && reply.value.status == 200 && reply.value.body.Some?
                         && reply.value.body.value.code == Some("200") && |reply.value.body.value.locationIds| > 0
                         && id == reply.value.body.value.locationIds[0]
    ensures reply.Some? && reply.value.status == 200 && reply.value.body.Some?
            && reply.value.body.value.code == Some("200") && |reply.value.body.value.locationIds| > 0
            ==> id == reply.value.body.value.locationIds[0]
  {
    if reply.Some? && reply.value.status == 200 && reply.value.body.Some?
       && reply.value.body.value.code == Some("200") && |reply.value.body.value.locationIds| > 0
    then reply.value.body.value.locationIds[0]
    else None
  }

  /** The location queried: the looked-up id when it is a non-empty string, else the city name. */
  function LocationId(city: string, looked: Option<string>): (l: string)
    ensures looked.Some? && looked.value != "" ==> l == looked.value
    ensures looked.None? || looked.value == "" ==> l == city
  {
    if looked.Some? && looked.value != "" then looked.value else city
  }

  /** A reply the client accepts: HTTP 200, a JSON body with code "200" and a non-empty daily list. */
  predicate Accepted(reply: Option<ForecastReply>) {
    reply.Some? && reply.value.status == 200 && reply.value.body.Some?
    && reply.value.body.value.code == Some("200") && |reply.value.body.value.daily| > 0
  }

  /** `data.get("location", {})`. */
  function LocationOrEmpty(location: Option<map<string, string>>): map<string, string> {
    if location.Some? then location.value else map[]
  }

  /** A cached daily list is cut to the requested days only when it is non-empty. */
  function CutDaily(daily: seq<DailyEntry>, days: int): (r: seq<DailyEntry>)
    ensures |r| <= |daily| && r == daily[..|r|]
    ensures days >= 0 && |daily| > 0 ==> |r| == if days <= |daily| then days else |daily|
  {
    if |daily| > 0 then PyHead(daily, days) else daily
  }

  /** The text of the ValueError raised when no key is configured. */
  const KeyMissingMessage: string := "QWEATHER_API_KEY is not configured"

  /** The endpoints the client uses: the configured host, normalised. */
  function ConfiguredEndpoints(fromSettings: Option<string>, fromEnv: Option<string>): Endpoints {
    NormaliseHost(ConfiguredHost(fromSettings, fromEnv))
  }

  /** The forecast client: a key, its endpoints and the forecast cache. */
  class WeatherService {
    const apiKey: Option<string>
    const endpoints: Endpoints
    /** Forecasts by cache key, each with the time it was written. */
    var cache: map<string, CacheEntry>

    /** The key is the argument, else the settings value, else the environment value; the
        host likewise comes from the settings, else the environment. */
    constructor (keyArg: Option<string>, keyFromSettings: Option<string>, keyFromEnv: Option<string>,
                 hostFromSettings: Option<string>, hostFromEnv: Option<string>)
      ensures apiKey == Or(Or(keyArg, keyFromSettings), keyFromEnv)
      ensures endpoints == ConfiguredEndpoints(hostFromSettings, hostFromEnv)
      ensures cache == map[]
    {
      apiKey := Or(Or(keyArg, keyFromSettings), keyFromEnv);
      endpoints := ConfiguredEndpoints(hostFromSettings, hostFromEnv);
      cache := map[];
    }

    /** A usable key is configured, or the ValueError to raise. */
    function EnsureApiKey(): (r: Result<()>)
      ensures r.Ok? <==> apiKey.Some? && apiKey.value != ""
      ensures r.ValueError? ==> r.message == KeyMissingMessage
    {
      if apiKey.Some? && apiKey.value != "" then Ok(()) else ValueError(KeyMissingMessage)
    }

    /** Reads the cache at time `now`, dropping an expired entry. */
    method CacheGet(key: string, now: real, ttl: real) returns (r: Option<ForecastResult>)
      modifies this`cache
      ensures r == ReadCache(old(cache), key, now, ttl).hit
      ensures cache == ReadCache(old(cache), key, now, ttl).cache
    {
      if key in cache {
        var item := cache[key];
        if now - item.ts <= ttl {
          return Some(item.data);
        }
      }
      cache := cache - {key};
      return None;
    }

    /** Stores `data` stamped with `now`. */
    method CacheSet(key: string, data: ForecastResult, now: real)
      modifies this`cache
      ensures cache == old(cache)[key := CacheEntry(now, data)]
    {
      cache := cache[key := CacheEntry(now, data)];
    }

    /** The forecast for `city` covering `days`, exactly as the client computes it. A fresh
        cache entry is served as a copy whose daily list is cut to `days`. Otherwise the city
        is looked up (falling back to its name), the window's forecast is fetched, and an
        accepted reply is cached and returned with its daily list cut to `days`. The cached
        object is the one returned, so the cache ends up holding the cut list. Every
        failure returns `Ok(None)`; a missing key is the one ValueError. */
    method GetForecast(city: string, days: int, now: real,
                       lookup: (string, string) -> Option<LookupReply>,
                       fetch: (string, string) -> Option<ForecastReply>)
      returns (r: Result<Option<ForecastResult>>)
      modifies this`cache
      ensures EnsureApiKey().ValueError? ==> r == ValueError(KeyMissingMessage) && cache == old(cache)
      ensures EnsureApiKey().Ok? ==>
                var key := ForecastCacheKey(city, OptimalWindow(days));
                var read := ReadCache(old(cache), key, now, CacheTtl);
                var reply := fetch(ForecastUrl(endpoints.baseUrl, OptimalWindow(days)),
                                   LocationId(city, CityLookupId(lookup(endpoints.cityLookupUrl, city))));
                if read.hit.Some? then
                  r.Ok? && r.value.Some? && fresh(r.value.value) && cache == old(cache)
                  && r.value.value.daily == CutDaily(old(read.hit.value.daily), days)
                  && r.value.value.location == old(read.hit.value.location)
                  && r.value.value.updateTime == old(read.hit.value.updateTime)
                  && r.value.value.fxLink == old(read.hit.value.fxLink)
                else if Accepted(reply) then
                  r.Ok? && r.value.Some? && fresh(r.value.value)
                  && cache == read.cache[key := CacheEntry(now, r.value.value)]
                  && r.value.value.daily == PyHead(reply.value.body.value.daily, days)
                  && r.value.value.location == LocationOrEmpty(reply.value.body.value.location)
                  && r.value.value.updateTime == reply.value.body.value.updateTime
                  && r.value.value.fxLink == reply.value.body.value.fxLink
                else
                  r == Ok(None) && cache == read.cache
    {
      var ok := EnsureApiKey();
      if ok.ValueError? {
        return ValueError(ok.message);
      }
      var window := OptimalWindow(days);
      var url := ForecastUrl(endpoints.baseUrl, window);
      var key := ForecastCacheKey(city, window);
      var cached := CacheGet(key, now, CacheTtl);
      if cached.Some? {
        var c := cached.value;
        var result := new ForecastResult(c.location, c.daily, c.updateTime, c.fxLink);
        if |result.daily| > 0 {
          result.daily := PyHead(result.daily, days);
        }
        return Ok(Some(result));
      }
      var locationId := LocationId(city, CityLookupId(lookup(endpoints.cityLookupUrl, city)));
      var reply := fetch(url, locationId);
      if !Accepted(reply) {
        return Ok(None);
      }
      var body := reply.value.body.value;
      var result := new ForecastResult(LocationOrEmpty(body.location), body.daily, body.updateTime, body.fxLink);
      CacheSet(key, result, now);
      result.daily := PyHead(body.daily, days);
      return Ok(Some(result));
    }

    /** The forecast flow with the cache holding the full daily list, as the flow intends: the
        cached object is separate from the returned one, which alone is cut to `days`. */
    method GetForecastKeepingFullList(city: string, days: int, now: real,
                                      lookup: (string, string) -> Option<LookupReply>,
                                      fetch: (string, string) -> Option<ForecastReply>)
      returns (r: Result<Option<ForecastResult>>)
      modifies this`cache
      ensures EnsureApiKey().ValueError? ==> r == ValueError(KeyMissingMessage) && cache == old(cache)
      ensures EnsureApiKey().Ok? ==>
                var key := ForecastCacheKey(city, OptimalWindow(days));
                var read := ReadCache(old(cache), key, now, CacheTtl);
                var reply := fetch(ForecastUrl(endpoints.baseUrl, OptimalWindow(days)),
                                   LocationId(city, CityLookupId(lookup(endpoints.cityLookupUrl, city))));
                if read.hit.Some? then
                  r.Ok? && r.value.Some? && fresh(r.value.value) && cache == old(cache)
                  && r.value.value.daily == CutDaily(old(read.hit.value.daily), days)
                else if Accepted(reply) then
                  r.Ok? && r.value.Some? && fresh(r.value.value)
                  && key in cache && fresh(cache[key].data) && cache[key].data != r.value.value
                  && cache == read.cache[key := cache[key]] && cache[key].ts == now
                  && cache[key].data.daily == reply.value.body.value.daily
                  && r.value.value.daily == PyHead(reply.value.body.value.daily, days)
                else
                  r == Ok(None) && cache == read.cache
    {
      var ok := EnsureApiKey();
      if ok.ValueError? {
        return ValueError(ok.message);
      }
      var window := OptimalWindow(days);
      var url := ForecastUrl(endpoints.baseUrl, window);
      var key := ForecastCacheKey(city, window);
      var cached := CacheGet(key, now, CacheTtl);
      if cached.Some? {
        var c := cached.value;
        var result := new ForecastResult(c.location, c.daily, c.updateTime, c.fxLink);
        if |result.daily| > 0 {
          result.daily := PyHead(result.daily, days);
        }
        return Ok(Some(result));
      }
      var locationId := LocationId(city, CityLookupId(lookup(endpoints.cityLookupUrl, city)));
      var reply := fetch(url, locationId);
      if !Accepted(reply) {
        return Ok(None);
      }
      var body := reply.value.body.value;
      var location := LocationOrEmpty(body.location);
      var full := new ForecastResult(location, body.daily, body.updateTime, body.fxLink);
      CacheSet(key, full, now);
      var result := new ForecastResult(location, PyHead(body.daily, days), body.updateTime, body.fxLink);
      return Ok(Some(result));
    }
  }

  /** A reply carrying `daily` and nothing else of interest. */
  function ReplyWithDaily(daily: seq<DailyEntry>): Option<ForecastReply> {
    Some(ForecastReply(200, Some(ForecastBody(Some("200"), None, daily, None, None))))
  }

  /** As written: four days of a city are asked for, then, a minute later, six days (both fall
      in the 7-day window). The second answer comes from the cache and has only the four days
      the first call kept, although seven were fetched. */
  method TruncatedCacheScenario(service: WeatherService, city: string, daily: seq<DailyEntry>)
    returns (first: seq<DailyEntry>, second: seq<DailyEntry>)
    requires service.EnsureApiKey().Ok? && ForecastCacheKey(city, D7) !in service.cache
    requires |daily| == 7
    modifies service
    ensures |first| == 4 && |second| == 4
  {
    var lookup := (url: string, name: string) => None;
    var fetch := (url: string, location: string) => ReplyWithDaily(daily);
    assert OptimalWindow(4) == D7 && OptimalWindow(6) == D7;
    var r1 := service.GetForecast(city, 4, 0.0, lookup, fetch);
    assert service.cache[ForecastCacheKey(city, D7)].data == r1.value.value;
    var r2 := service.GetForecast(city, 6, 60.0, lookup, fetch);
    first, second := r1.value.value.daily, r2.value.value.daily;
  }

  /** With the full list cached, the same two calls give four and then six days. */
  method FullCacheScenario(service: WeatherService, city: string, daily: seq<DailyEntry>)
    returns (first: seq<DailyEntry>, second: seq<DailyEntry>)
    requires service.EnsureApiKey().Ok? && ForecastCacheKey(city, D7) !in service.cache
    requires |daily| == 7
    modifies service
    ensures |first| == 4 && second == daily[..6]
  {
    var lookup := (url: string, name: string) => None;
    var fetch := (url: string, location: string) => ReplyWithDaily(daily);
    assert OptimalWindow(4) == D7 && OptimalWindow(6) == D7;
    var r1 := service.GetForecastKeepingFullList(city, 4, 0.0, lookup, fetch);
    assert service.cache[ForecastCacheKey(city, D7)].data.daily == daily;
    var r2 := service.GetForecastKeepingFullList(city, 6, 60.0, lookup, fetch);
    first, second := r1.value.value.daily, r2.value.value.daily;
  }

  // ---------------------------------------------------------------------------------------
  // Travel advice
  // ---------------------------------------------------------------------------------------

  /** The clothing advice texts, from coldest to warmest band. */
  const ClothingTexts: seq<string> := ["穿厚外套/羽绒服", "穿夹克/薄外套", "长袖衬衫", "轻薄上衣即可"]

  /** The band of a maximum temperature: below 5, below 15, below 25, otherwise. */
  function ClothingBand(tempMax: int): (b: nat)
    ensures b < |ClothingTexts|
    ensures b == 0 <==> tempMax < 5
    ensures b == 1 <==> 5 <= tempMax < 15
    ensures b == 2 <==> 15 <= tempMax < 25
    ensures b == 3 <==> 25 <= tempMax
  {
    if tempMax < 5 then 0 else if tempMax < 15 then 1 else if tempMax < 25 then 2 else 3
  }

  /** A warmer day never gets warmer clothing. */
  lemma ClothingBandMonotone(t1: int, t2: int)
    requires t1 <= t2
    ensures ClothingBand(t1) <= ClothingBand(t2)
  {
  }

  /** The precipitation advice: an umbrella from 0.3 upwards, light rain for any positive amount
      below that, nothing otherwise. */
  function RainText(precip: real): (t: Option<string>)
    ensures t.Some? <==> precip > 0.0
    ensures t == Some("带伞或防水外套") <==> precip >= 0.3
    ensures 0.0 < precip < 0.3 ==> t == Some("可能有小雨")
  {
    if precip >= 0.3 then Some("带伞或防水外套") else if precip > 0.0 then Some("可能有小雨") else None
  }

  /** The advice for one day: the clothing item, then the precipitation item when there is
      one, joined with "，". */
  method GenerateAdvice(tempMax: int, precip: real) returns (s: string)
    ensures s == ClothingTexts[ClothingBand(tempMax)]
                 + (if RainText(precip).Some? then "，" + RainText(precip).value else "")
  {
    var advice: seq<string> := [];
    if tempMax < 5 {
      advice := advice + ["穿厚外套/羽绒服"];
    } else if tempMax < 15 {
      advice := advice + ["穿夹克/薄外套"];
    } else if tempMax < 25 {
      advice := advice + ["长袖衬衫"];
    } else {
      advice := advice + ["轻薄上衣即可"];
    }
    if precip >= 0.3 {
      advice := advice + ["带伞或防水外套"];
    } else if precip > 0.0 {
      advice := advice + ["可能有小雨"];
    }
    assert |advice| == 2 ==> advice[1..] == [advice[1]];
    s := Join(advice, "，");
  }

  /** No advice text contains the separator, so the advice splits back into its one clothing
      item and at most one precipitation item. */
  lemma AdviceTextsHaveNoSeparator()
    ensures forall i :: 0 <= i < |ClothingTexts| ==> '，' !in ClothingTexts[i]
    ensures forall p: real :: RainText(p).Some? ==> '，' !in RainText(p).value
  {
  }
}
