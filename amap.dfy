/** The AMap web-service client: geocoding with a place-search fallback, business hours of a
    place, and driving distance. HTTP replies are inputs; a `None` reply stands for a request
    that raised (network error, HTTP error status, undecodable body). */
module Amap {
  import opened Wrappers
  import opened Text

  /** A point as (longitude, latitude). */
  datatype Coords = Coords(lng: real, lat: real)

  /** A driving leg as (metres, seconds). */
  datatype Drive = Drive(distanceM: int, durationS: int)

  /** A JSON value, as far as the lookups inspect one. `Other` is any other value
      (number, list, boolean, null) together with its Python truthiness. */
  datatype Json = Missing | Str(s: string) | Obj(fields: map<string, Json>) | Other(truthy: bool)

  /** Python truthiness of a decoded JSON value. */
  predicate Truthy(v: Json) {
    match v
    case Missing => false
    case Str(s) => s != ""
    case Obj(f) => f != map[]
    case Other(t) => t
  }

  /** `d.get(k)`: the value under `k`, or nothing. */
  function Get(d: map<string, Json>, k: string): Json {
    if k in d then d[k] else Missing
  }

  /** One POI of a place-search reply: its `location`, already read as coordinates when it is
      a non-empty "lng,lat" text, and its other fields. */
  datatype PlacePoi = PlacePoi(location: Option<Coords>, info: map<string, Json>)

  /** Reply of the geocoding endpoint: `status` and the `location` of each geocode. */
  datatype GeocodeReply = GeocodeReply(status: Json, geocodes: seq<Option<Coords>>)

  /** Reply of the place-search endpoint. */
  datatype PlaceReply = PlaceReply(status: Json, pois: seq<PlacePoi>)

  /** Reply of the distance endpoint; each result already read as whole metres and seconds. */
  datatype DistanceReply = DistanceReply(status: Json, results: seq<Drive>)

  /** The text of the ValueError every lookup raises when no key is configured. */
  const KeyMissingMessage: string := "AMAP_API_KEY 未配置"

  /** The status value the provider uses for success. */
  const StatusOk: Json := Str("1")

  /** Coordinates from the geocoding reply: status "1", a non-empty geocode list, and a
      location on the first geocode. */
  function GeocodeLocation(reply: Option<GeocodeReply>): Option<Coords> {
    if reply.Some? && reply.value.status == StatusOk && |reply.value.geocodes| > 0
    then reply.value.geocodes[0] else None
  }

  /** The first POI of a successful place-search reply. */
  function FirstPlace(reply: Option<PlaceReply>): Option<PlacePoi> {
    if reply.Some? && reply.value.status == StatusOk && |reply.value.pois| > 0
    then Some(reply.value.pois[0]) else None
  }

  /** Coordinates from a place-search reply: the location of its first POI. */
  function PlaceLocation(reply: Option<PlaceReply>): Option<Coords> {
    match FirstPlace(reply)
    case Some(p) => p.location
    case None => None
  }

  /** The place-cache key of a keyword and an optional city ("" when absent). */
  function CacheKey(keyword: string, city: string): string {
    keyword + "|" + city
  }

  /** In a cache key, the first '|' is the one right after the keyword, when the keyword has none. */
  lemma {:induction false} CacheKeySeparator(keyword: string, city: string)
    requires forall i :: 0 <= i < |keyword| ==> keyword[i] != '|'
    ensures Find(CacheKey(keyword, city), '|') == |keyword|
  {
    var k := CacheKey(keyword, city);
    assert k[|keyword|] == '|';
    forall j | 0 <= j < |keyword| ensures k[j] != '|' {
      assert k[j] == keyword[j];
    }
  }

  /** Keywords without '|' give distinct cache keys for distinct (keyword, city) queries. */
  lemma {:induction false} CacheKeyInjective(k1: string, c1: string, k2: string, c2: string)
    requires forall i :: 0 <= i < |k1| ==> k1[i] != '|'
    requires forall i :: 0 <= i < |k2| ==> k2[i] != '|'
    requires CacheKey(k1, c1) == CacheKey(k2, c2)
    ensures k1 == k2 && c1 == c2
  {
    CacheKeySeparator(k1, c1);
    CacheKeySeparator(k2, c2);
    var key := CacheKey(k1, c1);
    assert k1 == key[..|k1|] && k2 == key[..|k2|];
    assert c1 == key[|k1| + 1..] && c2 == key[|k2| + 1..];
  }

  /** The key is not injective in general: a keyword that contains '|' can share an entry
      with another query. */
  lemma CacheKeyCollision()
    ensures CacheKey("a|b", "") == CacheKey("a", "b|")
  {
  }

  /** The field names tried for business hours, in priority order. */
  const HoursFields: seq<string> := ["business_hours", "opentime", "opentime_week", "biz_ext"]

  /** A value that is a string with something besides whitespace, stripped. */
  function NonBlank(v: Json): (r: Option<string>)
    ensures r.Some? <==> v.Str? && Strip(v.s) != ""
    ensures r.Some? ==> r.value == Strip(v.s) && r.value != "" && Trimmed(r.value)
  {
    if v.Str? && Strip(v.s) != "" then Some(Strip(v.s)) else None
  }

  /** What one field contributes: a non-blank string value, stripped; for `biz_ext` holding an
      object, its `open_time` when that is truthy and otherwise its `open_hours`, again only
      when that is a non-blank string. */
  function FieldHours(place: map<string, Json>, field: string): (r: Option<string>)
    ensures r.Some? ==> r.value != "" && Trimmed(r.value)
    ensures NonBlank(Get(place, field)).Some? ==> r == NonBlank(Get(place, field))
    ensures field != "biz_ext" ==> r == NonBlank(Get(place, field))
    ensures !Get(place, field).Str? && !Get(place, field).Obj? ==> r.None?
  {
    var v := Get(place, field);
    if NonBlank(v).Some? then NonBlank(v)
    else if field == "biz_ext" && v.Obj? then
      var openTime := Get(v.fields, "open_time");
      NonBlank(if Truthy(openTime) then openTime else Get(v.fields, "open_hours"))
    else None
  }

  /** First-match search over `fields`: the position of the first field that contributes
      something, or `|fields|` when none does. */
  function FirstHoursIndex(place: map<string, Json>, fields: seq<string>): (i: nat)
    ensures i <= |fields|
    ensures i < |fields| ==> FieldHours(place, fields[i]).Some?
    ensures forall j :: 0 <= j < i ==> FieldHours(place, fields[j]).None?
  {
    FirstHoursIndexFrom(place, fields, 0)
  }

  /** The search from position `from` on. */
  function FirstHoursIndexFrom(place: map<string, Json>, fields: seq<string>, from: nat): (i: nat)
    requires from <= |fields|
    ensures from <= i <= |fields|
    ensures i < |fields| ==> FieldHours(place, fields[i]).Some?
    ensures forall j :: from <= j < i ==> FieldHours(place, fields[j]).None?
    decreases |fields| - from
  {
    if from == |fields| then from
    else if FieldHours(place, fields[from]).Some? then from
    else FirstHoursIndexFrom(place, fields, from + 1)
  }

  /** The business hours of a place: the stripped contribution of the first priority field
      that has one, or nothing when no field qualifies. */
  function OpenHours(place: map<string, Json>): (r: Option<string>)
    ensures r.Some? ==> r.value != "" && Trimmed(r.value)
    ensures r.None? <==> forall i :: 0 <= i < |HoursFields| ==> FieldHours(place, HoursFields[i]).None?
  {
    var i := FirstHoursIndex(place, HoursFields);
    if i < |HoursFields| then FieldHours(place, HoursFields[i]) else None
  }

  /** A non-blank `business_hours` string wins over every other field. */
  lemma BusinessHoursFirst(place: map<string, Json>)
    requires Get(place, "business_hours").Str? && Strip(Get(place, "business_hours").s) != ""
    ensures OpenHours(place) == Some(Strip(Get(place, "business_hours").s))
  {
  }

  /** The answer is the first qualifying field in priority order: when field `i` qualifies and
      none before it does, its stripped value is the answer; when none qualifies there is none. */
  lemma {:induction false} OpenHoursFirstMatch(place: map<string, Json>, i: nat)
    requires i < |HoursFields|
    requires FieldHours(place, HoursFields[i]).Some?
    requires forall j :: 0 <= j < i ==> FieldHours(place, HoursFields[j]).None?
    ensures OpenHours(place) == FieldHours(place, HoursFields[i])
  {
    FirstHoursIndexUnique(place, HoursFields, i);
  }

  /** The first-match position is determined by the fields: a qualifying field with none
      qualifying before it is the one found. */
  lemma FirstHoursIndexUnique(place: map<string, Json>, fields: seq<string>, i: nat)
    requires i < |fields|
    requires FieldHours(place, fields[i]).Some?
    requires forall j :: 0 <= j < i ==> FieldHours(place, fields[j]).None?
    ensures FirstHoursIndex(place, fields) == i
  {
    var k := FirstHoursIndex(place, fields);
    assert !(k < i) && !(i < k);
  }

  /** A truthy but blank `biz_ext.open_time` hides `biz_ext.open_hours`: the `or` picks the
      blank text, which then fails the non-blank test. */
  lemma BlankOpenTimeHidesOpenHours(place: map<string, Json>, blank: string, hours: string)
    requires forall j :: 0 <= j < 3 ==> FieldHours(place, HoursFields[j]).None?
    requires blank != "" && Strip(blank) == ""
    requires Get(place, "biz_ext") == Obj(map["open_time" := Str(blank), "open_hours" := Str(hours)])
    ensures OpenHours(place) == None
  {
    assert FieldHours(place, "biz_ext") == None;
    assert forall j :: 0 <= j < |HoursFields| ==> FieldHours(place, HoursFields[j]).None?;
  }

  /** An object under `biz_ext` whose `open_time` is a non-blank string gives that string,
      stripped, when no earlier field qualifies. */
  lemma BizExtOpenTime(place: map<string, Json>)
    requires forall j :: 0 <= j < 3 ==> FieldHours(place, HoursFields[j]).None?
    requires Get(place, "biz_ext").Obj?
    requires Get(Get(place, "biz_ext").fields, "open_time").Str?
    requires Strip(Get(Get(place, "biz_ext").fields, "open_time").s) != ""
    ensures OpenHours(place) == Some(Strip(Get(Get(place, "biz_ext").fields, "open_time").s))
  {
    OpenHoursFirstMatch(place, 3);
  }

  /** An object under `biz_ext` whose `open_time` is falsy falls back to `open_hours`: a
      non-blank string there is the answer, stripped, when no earlier field qualifies. */
  lemma BizExtOpenHours(place: map<string, Json>)
    requires forall j :: 0 <= j < 3 ==> FieldHours(place, HoursFields[j]).None?
    requires Get(place, "biz_ext").Obj?
    requires !Truthy(Get(Get(place, "biz_ext").fields, "open_time"))
    requires Get(Get(place, "biz_ext").fields, "open_hours").Str?
    requires Strip(Get(Get(place, "biz_ext").fields, "open_hours").s) != ""
    ensures OpenHours(place) == Some(Strip(Get(Get(place, "biz_ext").fields, "open_hours").s))
  {
    OpenHoursFirstMatch(place, 3);
  }

  /** An object under `biz_ext` gives nothing when the text the `or` picks is not a non-blank
      string: `open_time` truthy but not such a string (a number, say), or `open_time` falsy
      and `open_hours` not such a string. With no earlier field qualifying, there are no hours. */
  lemma BizExtNoHours(place: map<string, Json>)
    requires forall j :: 0 <= j < 3 ==> FieldHours(place, HoursFields[j]).None?
    requires Get(place, "biz_ext").Obj?
    requires var inner := Get(place, "biz_ext").fields;
             || (Truthy(Get(inner, "open_time")) && NonBlank(Get(inner, "open_time")).None?)
             || (!Truthy(Get(inner, "open_time")) && NonBlank(Get(inner, "open_hours")).None?)
    ensures OpenHours(place) == None
  {
    assert FieldHours(place, "biz_ext") == None;
    assert forall j :: 0 <= j < |HoursFields| ==> FieldHours(place, HoursFields[j]).None?;
  }

  /** The provider client. The key comes from the constructor argument or the environment;
      "" stands for "not configured". */
  class AmapService {
    const apiKey: string
    /** Successful place lookups by `CacheKey(keyword, city)`. */
    var placeCache: map<string, PlacePoi>

    constructor (apiKey: string)
      ensures this.apiKey == apiKey && placeCache == map[]
    {
      this.apiKey := apiKey;
      placeCache := map[];
    }

    /** The key check every public lookup runs before any request. */
    function EnsureApiKey(): (r: Result<()>)
      ensures r.Ok? <==> apiKey != ""
      ensures r.ValueError? ==> r.message == KeyMissingMessage
    {
      if apiKey == "" then ValueError(KeyMissingMessage) else Ok(())
    }

    /** Geocodes an address: the geocoding reply's location when it has one, otherwise the
        place-search reply's, otherwise nothing. A missing key raises before any request. */
    method Geocode(address: string, city: string, primary: Option<GeocodeReply>,
                   fallback: Option<PlaceReply>)
      returns (r: Result<Option<Coords>>)
      ensures apiKey == "" ==> r == ValueError(KeyMissingMessage)
      ensures apiKey != "" && GeocodeLocation(primary).Some? ==> r == Ok(GeocodeLocation(primary))
      ensures apiKey != "" && GeocodeLocation(primary).None? ==> r == Ok(PlaceLocation(fallback))
    {
      var check := EnsureApiKey();
      if check.ValueError? {
        return ValueError(check.message);
      }
      if primary.Some? && primary.value.status == StatusOk && |primary.value.geocodes| > 0 {
        var location := primary.value.geocodes[0];
        if location.Some? {
          return Ok(location);
        }
      }
      if fallback.Some? && fallback.value.status == StatusOk && |fallback.value.pois| > 0 {
        var location2 := fallback.value.pois[0].location;
        if location2.Some? {
          return Ok(location2);
        }
      }
      return Ok(None);
    }

    /** Business hours of the place a keyword finds. A cached place is reused without a
        request; otherwise the reply's first POI is cached and used, and a failed or empty
        search returns nothing and caches nothing. */
    method GetPoiOpenHours(keyword: string, city: string, reply: Option<PlaceReply>)
      returns (r: Result<Option<string>>)
      modifies this`placeCache
      ensures apiKey == "" ==> r == ValueError(KeyMissingMessage) && placeCache == old(placeCache)
      ensures apiKey != "" && CacheKey(keyword, city) in old(placeCache) ==>
                r == Ok(OpenHours(old(placeCache)[CacheKey(keyword, city)].info))
                && placeCache == old(placeCache)
      ensures apiKey != "" && CacheKey(keyword, city) !in old(placeCache) && FirstPlace(reply).Some? ==>
                r == Ok(OpenHours(FirstPlace(reply).value.info))
                && placeCache == old(placeCache)[CacheKey(keyword, city) := FirstPlace(reply).value]
      ensures apiKey != "" && CacheKey(keyword, city) !in old(placeCache) && FirstPlace(reply).None? ==>
                r == Ok(None) && placeCache == old(placeCache)
    {
      var check := EnsureApiKey();
      if check.ValueError? {
        return ValueError(check.message);
      }
      var key := CacheKey(keyword, city);
      var place: PlacePoi;
      if key in placeCache {
        place := placeCache[key];
      } else {
        if reply.Some? && reply.value.status == StatusOk && |reply.value.pois| > 0 {
          place := reply.value.pois[0];
          placeCache := placeCache[key := place];
        } else {
          return Ok(None);
        }
      }
      return Ok(OpenHours(place.info));
    }

    /** Driving distance between two points: the first result of a successful reply,
        nothing when the request failed, the status is not "1" or there are no results. */
    method DrivingDistance(origin: Coords, destination: Coords, reply: Option<DistanceReply>)
      returns (r: Result<Option<Drive>>)
      ensures apiKey == "" ==> r == ValueError(KeyMissingMessage)
      ensures apiKey != "" ==>
                (r == Ok(None) <==> reply.None? || reply.value.status != StatusOk || reply.value.results == [])
      ensures apiKey != "" && r != Ok(None) ==> r == Ok(Some(reply.value.results[0]))
    {
      var check := EnsureApiKey();
      if check.ValueError? {
        return ValueError(check.message);
      }
      if reply.None? {
        return Ok(None);
      }
      if reply.value.status != StatusOk || |reply.value.results| == 0 {
        return Ok(None);
      }
      return Ok(Some(reply.value.results[0]));
    }
  }
}
