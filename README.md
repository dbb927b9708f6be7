# Travel planner backend — verified model

This project models the core of a travel-planning backend in Dafny and proves properties of
the model. The backend turns a trip request into a day-by-day itinerary:

- a language model drafts the plan;
- a map provider (AMap) geocodes each activity and measures the driving legs between
  consecutive activities;
- a weather provider (QWeather) supplies forecasts;
- a POI catalogue answers similarity searches;
- a small pipeline graph runs planner → retriever → scheduler → validators, then repair when
  validation found violations, then finalize.

One module per source file:

| module | file | what it holds |
|---|---|---|
| `Wrappers` | `wrappers.dfy` | `Option` and `Result`. `Result.ValueError` stands for Python's `ValueError`. |
| `Text` | `text.dfy` | The parts of Python's `str` the services use: `strip`/`lstrip`/`rstrip` over Unicode whitespace, `rstrip(c)`, `find`/`rfind`, `join`, slicing with negative bounds, and `str(int)`. |
| `Schemas` | `schemas.dfy` | Activity kinds, `Activity`, day and trip plans, trip requests with the 1..30 bound on the number of days. |
| `Amap` | `amap.dfy` | The map client: key check, geocoding with the place-search fallback, the business-hours field search, the place cache, driving distance. |
| `RouteValidator` | `route_validator.dfy` | The per-day driving-leg annotation, done in place with an address memo. |
| `Weather` | `weather.dfy` | The weather client: host normalisation, window choice, forecast URL, the TTL cache, the forecast flow, travel advice. |
| `Qwen` | `qwen.dfy` | The language-model client: key check and masking, lazy client creation, prompt assembly, extraction of the JSON object from the answer. |
| `PoiEmbedding` | `poi_embedding.dfy` | The catalogue service: load-once cache, document text and metadata of a POI, result shaping. |
| `GraphNodes` | `graph_nodes.dfy` | The pipeline state, the update merge and the six nodes (plus the weather node). |
| `Graph` | `graph.dfy` | The graph builder, the compiled pipeline, its route and runs, the memoised graph. |

## How the model is shaped

- **Objects that change.** The services whose source assigns their fields are classes, and
  their methods say what they modify. This covers the map client's place cache, the
  annotator's geocode memo, the weather cache, the lazily created model client, the loaded
  catalogue, the graph builder and the compiled-graph memo. `Activity` is a class because
  the annotation rewrites its two derived fields in place.
- **Values.** Plans, requests, replies and pipeline states are datatypes.
- **Outside answers are parameters.**
  - HTTP replies are parameters of abstract reply types; `None` means the request raised.
    Only the reply fields the code reads are modelled.
  - The clock (`now`), the environment variables and the file contents are parameters too.
  - The model call, JSON decoding, the plan constructor, the vector search and the real and
    fallback weather functions are function-typed parameters.
- **Python semantics are written out.**
  - Truthiness is written out. `x or y` on strings picks the first non-empty one.
  - `round(seconds / 60)` rounds halves to even.
  - `text[:n]` follows Python slicing for any `n`.
  - `str.strip()` uses Python's whitespace set.

## Model

| member | source | states |
|---|---|---|
| Schemas.ParseActivityType | backend/app/schemas.py:6-15 | A wire value reads back only as the activity kind whose value it is; any other text is rejected. |
| Schemas.ActivityTypeValues | backend/app/schemas.py:6-15 | There are exactly eight kinds, their wire values are pairwise distinct, and every kind survives the trip through its value. |
| Schemas.Activity.constructor | backend/app/schemas.py:17-30 | A parsed activity keeps every given field, and both derived driving fields start unset. |
| Schemas.NewTripRequest | backend/app/schemas.py:85-93 | A request is accepted exactly when the number of days lies in 1..30. The optional fields then take their declared defaults: theme "休闲旅游", no budget, no interests, no start date, no accommodation. |
| Amap.AmapService.constructor | backend/app/services/amap_service.py:15-21 | The client keeps its key and starts with an empty place cache. |
| Amap.AmapService.EnsureApiKey | backend/app/services/amap_service.py:23-26 | The check passes exactly when a key is configured; otherwise it raises ValueError("AMAP_API_KEY 未配置"). |
| Amap.AmapService.Geocode | backend/app/services/amap_service.py:28-78 | With no key, it raises before any request. Otherwise it returns the first geocode's location when the geocoding reply has status "1" and a located geocode, else the place-search reply's first POI location, else nothing. |
| Amap.CacheKeyInjective | backend/app/services/amap_service.py:85 | For keywords without '\|', the key `keyword\|city` determines both the keyword and the city. |
| Amap.CacheKeyCollision | backend/app/services/amap_service.py:85 | A keyword containing '\|' can share a key with another query: ("a\|b", "") and ("a", "b\|"). |
| Amap.NonBlank | backend/app/services/amap_service.py:115-117 | A value contributes exactly when it is a string that is not blank, and then it is the stripped string. That result is non-empty and has no whitespace at either end. |
| Amap.FieldHours | backend/app/services/amap_service.py:114-123 | What one field contributes is always a non-empty, stripped text. A non-blank string value is that string, stripped. A field other than `biz_ext` contributes only such a string. A value that is neither a string nor an object contributes nothing. |
| Amap.FirstHoursIndex | backend/app/services/amap_service.py:113-123 | The search position is the first field that contributes something; every field before it contributes nothing. |
| Amap.OpenHours | backend/app/services/amap_service.py:113-125 | The hours are a non-empty, stripped text. There are none exactly when none of business_hours, opentime, opentime_week or biz_ext qualifies. |
| Amap.OpenHoursFirstMatch | backend/app/services/amap_service.py:113-125 | When field `i` qualifies and no earlier field does, the answer is field `i`'s stripped contribution. |
| Amap.FirstHoursIndexUnique | backend/app/services/amap_service.py:113-117 | The first qualifying position is unique: a qualifying field with none qualifying before it is the one found. |
| Amap.BusinessHoursFirst | backend/app/services/amap_service.py:113-117 | A non-blank business_hours string wins over every other field, stripped. |
| Amap.BizExtOpenTime | backend/app/services/amap_service.py:118-123 | When no earlier field qualifies, an object under `biz_ext` whose `open_time` is a non-blank string gives that string, stripped. |
| Amap.BizExtOpenHours | backend/app/services/amap_service.py:118-123 | When no earlier field qualifies and `biz_ext.open_time` is falsy, a non-blank `open_hours` string is the answer, stripped. |
| Amap.BlankOpenTimeHidesOpenHours | backend/app/services/amap_service.py:118-123 | A truthy but blank `biz_ext.open_time` is what the `or` picks, so `open_hours` is never consulted and no hours are found. |
| Amap.BizExtNoHours | backend/app/services/amap_service.py:118-123 | When no earlier field qualifies, an object under `biz_ext` gives no hours if the `or` picks something that is not a non-blank string. That is the case when `open_time` is truthy but not such a string (a number, say), or when `open_time` is falsy and `open_hours` is not such a string. |
| Amap.AmapService.GetPoiOpenHours | backend/app/services/amap_service.py:80-125 | With no key, it raises and leaves the cache alone. A cached place is read without a request. Otherwise only a successful search's first POI is cached and read. A failed or empty search returns nothing and caches nothing. |
| Amap.AmapService.DrivingDistance | backend/app/services/amap_service.py:127-155 | With no key, it raises. It returns nothing exactly when the request failed, the status is not "1" or there are no results; otherwise it returns the first result. |
| RouteValidator.CityOr | backend/app/services/route_validator_service.py:29 | The city used is the given one when non-empty, else "北京"; it is never empty. |
| RouteValidator.RoundedMinutes | backend/app/services/route_validator_service.py:50 | The minutes are within half a minute of the seconds, and an exact half goes to the even neighbour. |
| RouteValidator.RoundedMinutesUnique | backend/app/services/route_validator_service.py:50 | Those two conditions determine the minutes: round-half-even is the only answer. |
| RouteValidator.FirstLegEmpty | backend/app/services/route_validator_service.py:38-40 | The first activity of a day never has a distance or a driving time. |
| RouteValidator.LegPresence | backend/app/services/route_validator_service.py:42-50 | Distance and time are set together. They are set exactly when the activity is not the day's first, both endpoints resolve and the distance lookup answers. They then hold the rounded kilometres and minutes of that answer. |
| RouteValidator.UnresolvedBlanksBothLegs | backend/app/services/route_validator_service.py:37-51 | An address that does not resolve blanks the leg into it and also the leg out of it, because the unresolved coordinates are carried on. |
| RouteValidator.MemoKeepsResolution | backend/app/services/route_validator_service.py:20-26 | Memoising a provider answer changes what no address resolves to. |
| RouteValidator.LegsFollowResolution | backend/app/services/route_validator_service.py:20-26 | Legs depend on the memo only through what it resolves. |
| RouteValidator.AnnotatedFollowsResolution | backend/app/services/route_validator_service.py:20-26 | A day annotated under one memo is annotated under any memo that resolves alike. |
| RouteValidator.RouteValidatorService.constructor | backend/app/services/route_validator_service.py:16-18 | The annotator keeps its provider and starts with an empty memo. |
| RouteValidator.RouteValidatorService.GetCoords | backend/app/services/route_validator_service.py:20-26 | The memo is keyed by address alone. A memo hit is returned without a provider call. Otherwise the provider's answer for `hint or "北京"` is returned and memoised only when present. |
| RouteValidator.RouteValidatorService.AnnotateActivity | backend/app/services/route_validator_service.py:33-51 | One activity: both fields are reset, then its coordinates are resolved. Its leg is written only when it is not first, both ends resolved and the lookup answered. |
| RouteValidator.RouteValidatorService.AnnotateDay | backend/app/services/route_validator_service.py:31-51 | Every activity of the day ends up holding its leg, which comes from the previous activity of the same day. Only this day's activities and the memo change; the memo keeps what it held. |
| RouteValidator.RouteValidatorService.AnnotateTripDay | backend/app/services/route_validator_service.py:30-51 | Day `i` becomes annotated, and the days before it keep their annotation. |
| RouteValidator.RouteValidatorService.AnnotateTrip | backend/app/services/route_validator_service.py:28-52 | The same trip is returned, with every day annotated as the memo resolved it when the pass began. The city is the destination or "北京". Only the activities' derived fields and the memo change. |
| RouteValidator.Reannotate | backend/app/services/route_validator_service.py:33-35 | Annotating twice with the same collaborators leaves every activity as the first pass computed it (idempotence). |
| Weather.Or | backend/app/services/weather_service.py:18 | `a or b` on optional strings is one of the two, and it is non-empty exactly when one of them is. |
| Weather.OptimalWindow | backend/app/services/weather_service.py:62-81 | The window covers the requested days up to 30 and is the smallest window that does; more than 30 days gives the 30-day window. |
| Weather.OptimalWindowMonotone | backend/app/services/weather_service.py:72-81 | Asking for more days never gives a shorter window. |
| Weather.WindowParamInjective | backend/app/services/weather_service.py:72-81 | The five window parameters are distinct. |
| Weather.ForecastUrl | backend/app/services/weather_service.py:83-93 | The forecast URL is exactly the base URL, then `/v7/weather/`, then the window parameter: its prefix, its suffix and its length are stated. |
| Weather.ForecastUrlsDistinct | backend/app/services/weather_service.py:93 | Different windows give different URLs. |
| Weather.ConfiguredHost | backend/app/services/weather_service.py:23 | The host is the settings value when that is non-empty, else the environment value, else empty. |
| Weather.NormaliseHost | backend/app/services/weather_service.py:23-34 | A blank host gives the public defaults. Otherwise the lookup URL is the base plus `/geo/v2/city/lookup`. A host with a scheme loses its trailing '/'s; any other host gets `https://` in front. |
| Weather.NormaliseHostFixedPoint | backend/app/services/weather_service.py:23-29 | A normalised base with a scheme, no surrounding whitespace and no trailing '/' normalises to itself. |
| Weather.ForecastCacheKeyInjective | backend/app/services/weather_service.py:159 | The key `forecast:city:window` determines both the city and the window. |
| Weather.ReadCache | backend/app/services/weather_service.py:39-50 | A read hits exactly when the key is present and `now - ts <= ttl`, and then it returns the stored data. A miss leaves the cache without that key. |
| Weather.WriteThenRead | backend/app/services/weather_service.py:39-54 | A value written at time t is read back at any time within the TTL. |
| Weather.ExpiredStaysGone | backend/app/services/weather_service.py:46-50 | An expired entry is dropped, so every later read misses it. |
| Weather.ReadKeepsOtherKeys | backend/app/services/weather_service.py:42-49 | A read changes no other key. |
| Weather.CityLookupId | backend/app/services/weather_service.py:95-139 | An id is found exactly from an HTTP 200 reply whose body has code "200" and at least one location, and it is the first location's id; any other reply gives none. |
| Weather.LocationId | backend/app/services/weather_service.py:169-173 | A failed or empty lookup falls back to the city name. |
| Weather.CutDaily | backend/app/services/weather_service.py:164-165 | A cached daily list is cut to a prefix. For `days >= 0` and a non-empty list, the prefix has min(days, \|daily\|) entries; for a negative `days` it follows Python's `[:days]`. |
| Weather.ForecastResult.constructor | backend/app/services/weather_service.py:205-210 | A result dictionary holds the location, the daily list, the update time and the link. |
| Weather.WeatherService.constructor | backend/app/services/weather_service.py:16-34 | The key is the argument, else the settings value, else the environment value. The endpoints come from the normalised host. The cache starts empty. |
| Weather.WeatherService.EnsureApiKey | backend/app/services/weather_service.py:56-60 | The check passes exactly when a non-empty key is set; otherwise it raises ValueError("QWEATHER_API_KEY is not configured"). |
| Weather.WeatherService.CacheGet | backend/app/services/weather_service.py:39-50 | A read of the cache as `ReadCache` describes it, with the expired entry removed. |
| Weather.WeatherService.CacheSet | backend/app/services/weather_service.py:52-54 | The entry `(now, data)` is stored under the key, and nothing else changes. |
| Weather.WeatherService.GetForecast | backend/app/services/weather_service.py:141-225 | The flow as written. A fresh cache hit is served as a new copy of the entry with the daily list cut to `days`. Otherwise the lookup id (or the city name) is fetched. An accepted reply is cached, and that same object is returned with its list cut, so the cache holds the cut list. Every failure returns nothing. |
| Weather.WeatherService.GetForecastKeepingFullList | backend/app/services/weather_service.py:203-217 | The intended flow: the cached object is separate from the returned one and holds the full daily list. Only the returned copy is cut to `days`. |
| Weather.TruncatedCacheScenario | backend/app/services/weather_service.py:213-216 | As written, asking for 4 days and then 6 (both in the 7-day window) gives 4 entries the second time, although 7 were fetched. |
| Weather.FullCacheScenario | backend/app/services/weather_service.py:205-217 | With the full list cached, the same two calls give 4 and then 6 entries. |
| Weather.ClothingBand | backend/app/services/weather_service.py:283-290 | Exactly one clothing band, chosen by the thresholds < 5, < 15, < 25 and otherwise; each band holds exactly when its range does. |
| Weather.ClothingBandMonotone | backend/app/services/weather_service.py:283-290 | A warmer day never gets a heavier band. |
| Weather.RainText | backend/app/services/weather_service.py:293-296 | There is a precipitation item exactly when precipitation is positive. It is "带伞或防水外套" exactly when precipitation is at least 0.3, and "可能有小雨" for any amount above 0 and below 0.3. |
| Weather.GenerateAdvice | backend/app/services/weather_service.py:269-298 | The advice is the clothing item, then the precipitation item when there is one, joined with "，". |
| Weather.AdviceTextsHaveNoSeparator | backend/app/services/weather_service.py:280-298 | No item contains "，", so the advice splits back into its items. |
| Qwen.MaskKey | backend/app/services/qwen_service.py:27 | The logged key is the first four characters, "..." and the last four, with Python's slicing for short keys. |
| Qwen.MaskLengthFixed | backend/app/services/qwen_service.py:27 | For any key of at least 8 characters the mask has 11 characters, so it reveals nothing about the key's length. |
| Qwen.MaskHidesMiddle | backend/app/services/qwen_service.py:27 | Keys that agree on their first and last four characters have the same mask. |
| Qwen.JsonSlice | backend/app/services/qwen_service.py:73-77 | A slice is taken exactly when there is a '{' and the last '}' comes after the first '{'. |
| Qwen.JsonSliceTakenIff | backend/app/services/qwen_service.py:73-76 | A slice is taken exactly when some '{' comes before some '}'. |
| Qwen.JsonSliceBraced | backend/app/services/qwen_service.py:76-77 | A taken slice starts with '{', ends with '}' and is the piece of the answer from the first '{' to the last '}'. |
| Qwen.JsonSliceOfWrapped | backend/app/services/qwen_service.py:71-79 | An object with prose around it that contains no braces is extracted exactly. |
| Qwen.ParseResponse | backend/app/services/qwen_service.py:71-88 | The slice is decoded when it is taken and decodes; in every other case the whole answer is decoded. |
| Qwen.ParseWrappedResponse | backend/app/services/qwen_service.py:73-79 | An answer made of an object wrapped in brace-free prose decodes as the object. |
| Qwen.PlanFromAnswer | backend/app/services/qwen_service.py:71-104 | A decoding failure and a plan-construction failure each become a ValueError carrying the corresponding prefix. A success is the plan built from the decoded answer. |
| Qwen.FailuresArePrefixed | backend/app/services/qwen_service.py:97-104 | Every failure surfaces as a ValueError whose message starts with one of the two fixed prefixes. |
| Qwen.PromptTheme | backend/app/services/qwen_service.py:116 | The theme is the request's theme when it is non-empty, else "休闲旅游". |
| Qwen.OptionalLinesPresence | backend/app/services/qwen_service.py:119-127 | The budget line is present exactly when the budget is non-zero, the interests line exactly when there are interests, and the start-date line exactly when the date is non-empty. |
| Qwen.QwenService.constructor | backend/app/services/qwen_service.py:11-14 | The service starts without a client. |
| Qwen.QwenService.GetClient | backend/app/services/qwen_service.py:16-34 | An existing client is returned unchanged. Without one, a missing, empty or "sk-test-" key raises. Otherwise a client for the DashScope URL is created and kept, and the masked key is logged. |
| Qwen.QwenService.BuildPrompt | backend/app/services/qwen_service.py:106-176 | The prompt built step by step equals the header, the optional lines in order, and the schema for the number of days. |
| Qwen.QwenService.GenerateTripPlan | backend/app/services/qwen_service.py:36-104 | A refused key gives the general error. Otherwise the client is kept; a failed model call gives the general error, and an answer is turned into a plan by `PlanFromAnswer`. |
| PoiEmbedding.CreatePoiMetadata | backend/app/services/poi_embedding_service.py:63-74 | The metadata copies the id, name, type, address, rating, ticket price and business hours, and joins the tags with ", ". |
| PoiEmbedding.MetadataForgetsOnlyDescription | backend/app/services/poi_embedding_service.py:63-74 | Two POIs have the same metadata exactly when they agree on everything except the description and on their joined tags. |
| PoiEmbedding.CreatePoiDocument | backend/app/services/poi_embedding_service.py:47-61 | The document has no whitespace at either end. |
| PoiEmbedding.DocumentHeadEnds | backend/app/services/poi_embedding_service.py:50-59 | The template's text before the description ends with the "详细介绍:" line and the indentation of the next line. |
| PoiEmbedding.DocumentEndsWithDescription | backend/app/services/poi_embedding_service.py:58-61 | The document ends with the marker line followed by the description less its trailing whitespace. A blank description leaves the marker last. |
| PoiEmbedding.MarkerThenText | backend/app/services/poi_embedding_service.py:58-61 | The same holds for any template whose text before the description ends with the marker line. |
| PoiEmbedding.MarkerThenFilled | backend/app/services/poi_embedding_service.py:58-61 | The case of a non-blank description. |
| PoiEmbedding.MarkerThenBlank | backend/app/services/poi_embedding_service.py:58-61 | The case of a blank description. |
| PoiEmbedding.UnexpectedKeyword | backend/app/services/poi_embedding_service.py:18 | Keyword binding finds nothing exactly when every argument is a declared parameter. Otherwise it finds the first argument that is not one. |
| PoiEmbedding.Construct | backend/app/services/poi_embedding_service.py:18 | Building the service succeeds exactly when every keyword argument given to the embedding client is one its initialiser declares. Otherwise it raises TypeError naming an undeclared argument. |
| PoiEmbedding.ConstructionAsWrittenRaises | backend/app/services/poi_embedding_service.py:18 | As written, construction raises TypeError for `api_key`, because the client's initialiser declares no parameter. |
| PoiEmbedding.IntendedConstructionSucceeds | backend/app/services/embedding_service.py:12-14 | Called without arguments, as its initialiser expects, the client binds and the service is built. |
| PoiEmbedding.PoiEmbeddingService.constructor | backend/app/services/poi_embedding_service.py:14-23 | The service as intended: it starts with an empty cache that is not loaded. |
| PoiEmbedding.PoiEmbeddingService.LoadPoiData | backend/app/services/poi_embedding_service.py:25-45 | A loaded, non-empty cache is returned without reading the file. Otherwise a successful read is stored and marks the cache loaded. A failed read returns [] and changes nothing. |
| PoiEmbedding.LoadTwice | backend/app/services/poi_embedding_service.py:28-42 | After a non-empty first load, a second load returns the same catalogue without reading the file, whatever the file now holds. |
| PoiEmbedding.FormatHit | backend/app/services/poi_embedding_service.py:103-107 | A result carries the hit's metadata and document, and its score plus the distance is 1. |
| PoiEmbedding.SearchPoisByQuery | backend/app/services/poi_embedding_service.py:90-114 | It returns [] when the embedding check fails or the search raises. Otherwise it returns one formatted result per hit, in the same order. |
| PoiEmbedding.ScoresFollowDistance | backend/app/services/poi_embedding_service.py:106 | A closer hit never scores lower. |
| GraphNodes.InitialState | backend/app/graph/state.py:7-15 | A new state holds the request, with no plan, no weather, no violations, no sources, and not repaired. |
| GraphNodes.Apply | backend/app/graph/state.py:7-15 | Merging a node's update replaces exactly the fields the update carries; the request and the sources never change. |
| GraphNodes.ApplyIdempotent | backend/app/graph/state.py:7-15 | Merging the same update twice is merging it once. |
| GraphNodes.PlannerNode | backend/app/graph/nodes.py:23-27 | The planner stores the generated plan, and otherwise raises the generator's error. |
| GraphNodes.RetrieverNode | backend/app/graph/nodes.py:30-32 | The retriever changes nothing. |
| GraphNodes.SchedulerNode | backend/app/graph/nodes.py:35-37 | The scheduler changes nothing. |
| GraphNodes.RepairNode | backend/app/graph/nodes.py:73-75 | Repair only sets the repaired flag. |
| GraphNodes.FinalizeNode | backend/app/graph/nodes.py:78-80 | Finalize changes nothing. |
| GraphNodes.WeatherQuery | backend/app/graph/nodes.py:42-43 | The query uses the destination or "Beijing", and the number of days or 3. |
| GraphNodes.WeatherDaysFromRequest | backend/app/graph/nodes.py:43 | Since a request has 1..30 days, the default of 3 is never used. |
| GraphNodes.WeatherNode | backend/app/graph/nodes.py:40-55 | Only the weather changes: it becomes the real forecast when there is one, else the fallback for the same query. |
| GraphNodes.DayViolations | backend/app/graph/nodes.py:66-69 | A day gives no more violations than it has activities. |
| GraphNodes.DayViolationsAppend | backend/app/graph/nodes.py:66-69 | The violations of two consecutive stretches of a day are those of the first, then those of the second. Records keep the order of the activities. |
| GraphNodes.DayViolationsOne | backend/app/graph/nodes.py:67-69 | A single activity gives its `closed` record exactly when its status is False, and nothing otherwise. |
| GraphNodes.DayViolationsCount | backend/app/graph/nodes.py:66-69 | A day gives exactly one record per activity whose status is False, counted independently from the front. |
| GraphNodes.TripViolationsAppend | backend/app/graph/nodes.py:65-69 | The violations of two consecutive stretches of days are those of the first, then those of the second. |
| GraphNodes.TripViolationsOne | backend/app/graph/nodes.py:65-69 | A one-day trip has exactly that day's violations. |
| GraphNodes.DayViolationsMembers | backend/app/graph/nodes.py:65-69 | A day's violations are exactly the `closed` records of its activities whose status is False; True and unknown never count. |
| GraphNodes.TripViolationsMembers | backend/app/graph/nodes.py:65-69 | The trip's violations are exactly the `closed` records of its closed activities over all days. |
| GraphNodes.CollectViolations | backend/app/graph/nodes.py:65-69 | The nested loops build the violations day by day and activity by activity, in that order. |
| GraphNodes.ValidatorsNode | backend/app/graph/nodes.py:58-70 | Without a plan the update is empty. Otherwise it carries the annotated plan, with every day annotated, and the violations of its activities. |
| GraphNodes.CollectViolationsAsWritten | backend/app/graph/nodes.py:65-69 | As written, reading `open_ok` raises at the first activity, so any plan with an activity fails and one without gives []. |
| GraphNodes.OneActivityScenario | backend/app/graph/nodes.py:68 | A one-day, one-activity plan already raises as written, while the status read as a tri-state gives no violation. |
| Graph.StateGraph.constructor | backend/app/graph/graph.py:14 | A new builder has no nodes, no entry point and no edges. |
| Graph.StateGraph.AddNode | backend/app/graph/graph.py:15-20 | Adding a node appends it and leaves the rest alone. |
| Graph.StateGraph.SetEntryPoint | backend/app/graph/graph.py:22 | The entry point is set and the rest is left alone. |
| Graph.StateGraph.AddEdge | backend/app/graph/graph.py:23-25 | A fixed edge is recorded for its source node and the rest is left alone. |
| Graph.StateGraph.AddConditionalEdges | backend/app/graph/graph.py:30 | A routed edge is recorded for its source node and the rest is left alone. |
| Graph.StateGraph.Compile | backend/app/graph/graph.py:33 | The compiled graph holds exactly what the builder declared. |
| Graph.Route | backend/app/graph/graph.py:27-28 | The route goes to repair exactly when there are violations, and to finalize exactly when there are none. |
| Graph.Run | backend/app/graph/graph.py:22-32 | A run's trace starts at the node it starts from. This is only the shape of the walk; what it visits on the pipeline is stated by `PipelineTrace` and `TraceCounts`. |
| Graph.BuildGraph | backend/app/graph/graph.py:14-33 | The builder steps produce the declared pipeline. |
| Graph.PipelineWellFormed | backend/app/graph/graph.py:14-32 | The pipeline starts at the planner, and every edge names a declared node. |
| Graph.PipelineSteps | backend/app/graph/graph.py:22-32 | The edges: planner → retriever → scheduler → validators, then the route, then repair → finalize → END. |
| Graph.PipelineTrace | backend/app/graph/graph.py:22-32 | A run from the entry visits planner, retriever, scheduler and validators, then repair when there are violations, then finalize. |
| Graph.TraceCounts | backend/app/graph/graph.py:27-32 | Every run ends at finalize and visits it exactly once, and visits repair exactly when there are violations, at most once. |
| Graph.GraphCache.constructor | backend/app/graph/graph.py:6 | No graph is compiled at first. |
| Graph.GraphCache.GetGraph | backend/app/graph/graph.py:9-34 | The first call builds and keeps the pipeline; later calls return the kept graph unchanged. |

## Left out

- HTTP, JSON decoding and number parsing: every reply is an abstract value, and `None` stands for a raised request.
  - The "lng,lat" parse and the float conversions in the distance reply are not modelled; coordinates and metres/seconds arrive already parsed.
  - Status codes and fields the code does not read are not modelled.
- RouteValidator.RouteValidatorService.AnnotateTrip: the kilometre rounding `round(metres / 1000, 2)` is an abstract function of the provider (`roundKm`); its binary floating-point behaviour is not modelled.
- RouteValidator.RouteValidatorService.AnnotateTrip: requires every activity object to occur once in the trip. The Python accepts a plan that lists the same object twice, but the in-place model does not cover that aliasing.
- GraphNodes.ValidatorsNode: has the same no-repeated-activity requirement, inherited from `AnnotateTrip`.
- The geocoding and driving calls that `annotate_trip` makes through the map client are the provider's total functions `geocode` and `driving`. The map client's own flow is modelled separately in `Amap`. The ValueError("AMAP_API_KEY 未配置") that those calls raise without a key is not modelled inside the annotation. In the source it propagates out of `annotate_trip` after the first activity's fields have been reset.
- Amap.AmapService.constructor: takes the already resolved key (the argument, else the environment value); "" stands for "not configured".
- `test_connection` (the map and weather clients) and `geocode_debug` are diagnostics and are not modelled.
- Weather: the `_cache` dictionary is class-level, so the Python shares it across instances. The model keeps one map per client, so sharing across instances is not modelled.
- Weather: the JWT header and the request timeout do not affect results and are not modelled.
- Weather.WeatherService.GetForecast: one timestamp `now` serves both the cache read and the cache write. The source calls `time.time()` separately in `_cache_get` and `_cache_set`, so the stored timestamp can be slightly later than the one the read compared.
- Weather.LocationOrEmpty: a `location` key present with JSON null makes `data.get("location", {})` return `None`, but the model gives the empty map for it as for a missing key.
- Weather.WeatherService.GetForecast: `dict.copy()` is shallow. The model creates a new result object with the same fields, and since no list is mutated in place the two agree.
- Weather.RainText: precipitation is a real number, compared exactly; floating-point rounding is not modelled.
- `city_lookup`: its HTTP request is not modelled; its reply is a parameter, and `CityLookupId` states which id the reply gives.
- Qwen: the model call is the parameter `complete`, JSON decoding is `decode`, and `TripPlan(**data)` is `build`.
  - Their failure messages stand for the exception texts.
  - The system message, temperature, token limit and model name are not modelled.
- Qwen.QwenService.GetClient: the environment read is the parameter `envKey`. Debug and info logging are not modelled; the masked key is returned as `logged`.
- Qwen.QwenService.GenerateTripPlan: an exception raised while the answer is turned into a plan becomes a ValueError with the JSON or general prefix, chosen as `PlanFromAnswer` states. Python exception classes other than those two outcomes are not distinguished.
- PoiEmbedding: the file read is the parameter `file`, the embedding check (`_check_embedding_service`) is the boolean `embeddingOk`, and the vector search is `search`.
  - The services behind them (`embedding_service.py`, `vector_service.py`) are not part of this model, except for the signature of the embedding client's initialiser, which decides the construction finding below.
  - A missing key in a POI record (a KeyError) is not modelled; records are complete.
- PoiEmbedding.PoiEmbeddingService.constructor: as written, building the service raises TypeError. It passes `api_key=` to `EmbeddingService()`, whose initialiser takes no parameter. `ConstructionAsWrittenRaises` models that; the class is the service as intended, built without that argument.
- PoiEmbedding.PoiEmbeddingService.LoadPoiData: the Python returns the cached list object itself, so a caller that mutates the returned list mutates the cache. The model returns sequence values, so that aliasing is not captured.
- PoiEmbedding.Poi: rating and ticket price are kept as the text they render to in the document.
- GraphNodes.WeatherForecast: the model's own stand-in for the weather data. backend/app/graph/state.py:4 and backend/app/graph/nodes.py:4 import `WeatherForecast` (and `DailyForecast`) from backend/app/schemas.py, which defines neither. As written, importing the graph package fails; the model assumes the imports resolve.
- GraphNodes: the real and fallback weather functions come from a module that is not part of this model; they are the parameters `live` and `fallback`.
- GraphNodes: `_get_services` and the shared service instances are not modelled; each node receives its collaborator as a parameter.
- Graph: the LangGraph runtime is not modelled; only the routing shape is.
  - `Run` does not evolve the state: the route reads the violations of the state passed in, which stands for the state as validation left it.
  - The weather node is not wired into the graph (graph.py adds no such node), so the model's pipeline has none either.
- Logging throughout is not modelled.
- Concurrency is not modelled: the services are used by one caller at a time.

## Findings

| source | as written | input that shows it | evidently intended | confidence | as-written member | corrected member |
|---|---|---|---|---|---|---|
| backend/app/services/weather_service.py:205-216 | The result dict is cached at line 213, and the same object then has its `daily` list cut to `days` at line 216. The cache therefore holds the cut list, not the full one the comment at line 207 promises. | With a 7-entry reply, ask for a city's forecast for 4 days, then within 30 minutes for 6 days; both use the 7-day window. The second answer has 4 entries instead of 6. | The cache keeps the full list, and only the returned copy is cut. | not executed | Weather.TruncatedCacheScenario | Weather.FullCacheScenario |
| backend/app/graph/nodes.py:68 | `validators_node` reads `act.open_ok`, but `Activity` (backend/app/schemas.py:17-30) declares no such field. Reading it raises `AttributeError`, so the node fails for every plan that has an activity. | A plan with one day holding one activity. | The status is read as a possibly absent tri-state (True, False or unknown), and only False counts as a violation. | not executed | GraphNodes.CollectViolationsAsWritten | GraphNodes.CollectViolations |
| backend/app/services/poi_embedding_service.py:18 | The service builds its embedding client as `EmbeddingService(api_key=...)`, but `EmbeddingService.__init__` (backend/app/services/embedding_service.py:12) takes no parameter besides `self`. Python raises TypeError, so `POIEmbeddingService()` never returns, and loading and search are never reached. | Constructing the service, `POIEmbeddingService()`. | The client is built as `EmbeddingService()`, which reads `DASHSCOPE_API_KEY` from the environment itself. | not executed | PoiEmbedding.ConstructionAsWrittenRaises | PoiEmbedding.IntendedConstructionSucceeds |
