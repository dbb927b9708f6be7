/** Per-day distance annotation of an itinerary. Each activity gets the driving distance and
    time from the previous activity of the same day; coordinates are memoised by address. */
module RouteValidator {
  import opened Wrappers
  import opened Schemas
  import opened Amap

  /** The city used when neither the trip nor the caller names one. */
  const DefaultCity: string := "北京"

  /** `hint or "北京"`. */
  function CityOr(hint: string): (c: string)
    ensures c != ""
    ensures hint != "" ==> c == hint
    ensures hint == "" ==> c == DefaultCity
  {
    if hint == "" then DefaultCity else hint
  }

  /** The collaborators the annotation consults, as total functions of their arguments: the
      client's geocode of an address in a city, its driving distance between two points, and
      the rounding `round(metres / 1000, 2)`. */
  datatype Provider = Provider(
    geocode: (string, string) -> Option<Coords>,
    driving: (Coords, Coords) -> Option<Drive>,
    roundKm: int -> real)

  /** `int(round(seconds / 60))`: whole minutes, halves rounded to the even neighbour. */
  function RoundedMinutes(durationS: int): (m: int)
    ensures -30 <= durationS - 60 * m <= 30
    ensures durationS - 60 * m == 30 || durationS - 60 * m == -30 ==> m % 2 == 0
  {
    var q := durationS / 60;
    var rem := durationS % 60;
    if rem < 30 then q
    else if rem > 30 then q + 1
    else if q % 2 == 0 then q
    else q + 1
  }

  /** Nearest whole minute, ties to even, determines the minutes uniquely. */
  lemma {:induction false} RoundedMinutesUnique(durationS: int, m: int)
    requires -30 <= durationS - 60 * m <= 30
    requires durationS - 60 * m == 30 || durationS - 60 * m == -30 ==> m % 2 == 0
    ensures m == RoundedMinutes(durationS)
  {
    var n := RoundedMinutes(durationS);
    assert -60 <= 60 * n - 60 * m <= 60;
  }

  /** What one pass sees for an address: the memoised coordinates when the address is cached
      (whatever city they were found for), the provider's answer for the city otherwise. */
  function Resolve(p: Provider, cache: map<string, Coords>, address: string, hint: string): Option<Coords> {
    if address in cache then Some(cache[address]) else p.geocode(address, CityOr(hint))
  }

  /** The two derived fields of one activity. */
  datatype Leg = Leg(km: Option<real>, minutes: Option<int>)

  /** Both derived fields unset. */
  const NoLeg: Leg := Leg(None, None)

  /** A leg between two resolved endpoints: both must be known and the distance lookup must
      answer; then kilometres and minutes come from that answer. */
  function LegBetween(p: Provider, prev: Option<Coords>, cur: Option<Coords>): Leg {
    if prev.Some? && cur.Some? then
      match p.driving(prev.value, cur.value)
      case Some(d) => Leg(Some(p.roundKm(d.distanceM)), Some(RoundedMinutes(d.durationS)))
      case None => NoLeg
    else NoLeg
  }

  /** The leg annotated on activity `k` of a day: none for the first activity, otherwise the
      leg from the previous activity's resolved coordinates (resolved or not) to this one's. */
  function LegAt(p: Provider, cache: map<string, Coords>, hint: string, acts: seq<Activity>, k: nat): Leg
    requires k < |acts|
  {
    if k == 0 then NoLeg
    else LegBetween(p, Resolve(p, cache, acts[k - 1].location, hint), Resolve(p, cache, acts[k].location, hint))
  }

  /** The activity's derived fields hold `leg`. */
  predicate HasLeg(a: Activity, leg: Leg)
    reads a
  {
    a.distanceKmFromPrev == leg.km && a.driveTimeMinFromPrev == leg.minutes
  }

  /** Every activity of the day holds its leg as the memo `cache` resolves the day. */
  predicate DayAnnotated(p: Provider, cache: map<string, Coords>, hint: string, day: DayPlan)
    reads DayActivities(day)
  {
    forall k :: 0 <= k < |day.activities| ==> HasLeg(day.activities[k], LegAt(p, cache, hint, day.activities, k))
  }

  /** The first activity of a day never has a leg. */
  lemma FirstLegEmpty(p: Provider, cache: map<string, Coords>, hint: string, acts: seq<Activity>)
    requires |acts| > 0
    ensures LegAt(p, cache, hint, acts, 0) == NoLeg
  {
  }

  /** A leg is annotated exactly when the activity is not the first, both endpoints resolve and
      the distance lookup answers; the two fields are set or unset together, and when set they
      hold the rounded kilometres and minutes of that answer. */
  lemma LegPresence(p: Provider, cache: map<string, Coords>, hint: string, acts: seq<Activity>, k: nat)
    requires k < |acts|
    ensures LegAt(p, cache, hint, acts, k).km.Some? <==> LegAt(p, cache, hint, acts, k).minutes.Some?
    ensures LegAt(p, cache, hint, acts, k).km.Some? <==>
              k > 0 && Resolve(p, cache, acts[k - 1].location, hint).Some? && Resolve(p, cache, acts[k].location, hint).Some?
              && p.driving(Resolve(p, cache, acts[k - 1].location, hint).value, Resolve(p, cache, acts[k].location, hint).value).Some?
    ensures LegAt(p, cache, hint, acts, k).km.Some? ==>
              var d := p.driving(Resolve(p, cache, acts[k - 1].location, hint).value, Resolve(p, cache, acts[k].location, hint).value).value;
              LegAt(p, cache, hint, acts, k) == Leg(Some(p.roundKm(d.distanceM)), Some(RoundedMinutes(d.durationS)))
  {
  }

  /** An address that does not resolve blanks both the leg into it and the leg out of it. */
  lemma UnresolvedBlanksBothLegs(p: Provider, cache: map<string, Coords>, hint: string, acts: seq<Activity>, k: nat)
    requires k < |acts|
    requires Resolve(p, cache, acts[k].location, hint).None?
    ensures LegAt(p, cache, hint, acts, k) == NoLeg
    ensures k + 1 < |acts| ==> LegAt(p, cache, hint, acts, k + 1) == NoLeg
  {
  }

  /** Two memos that resolve every address alike. */
  ghost predicate SameResolution(p: Provider, c0: map<string, Coords>, c1: map<string, Coords>, hint: string) {
    forall a {:trigger Resolve(p, c1, a, hint)} :: Resolve(p, c1, a, hint) == Resolve(p, c0, a, hint)
  }

  /** Legs depend on the memo only through what it resolves. */
  lemma LegsFollowResolution(p: Provider, c0: map<string, Coords>, c1: map<string, Coords>, hint: string,
                             acts: seq<Activity>, k: nat)
    requires k < |acts|
    requires SameResolution(p, c0, c1, hint)
    ensures LegAt(p, c1, hint, acts, k) == LegAt(p, c0, hint, acts, k)
  {
    if k > 0 {
      assert Resolve(p, c1, acts[k - 1].location, hint) == Resolve(p, c0, acts[k - 1].location, hint);
      assert Resolve(p, c1, acts[k].location, hint) == Resolve(p, c0, acts[k].location, hint);
    }
  }

  /** A day annotated as one memo resolves it is annotated as any memo that resolves alike. */
  lemma AnnotatedFollowsResolution(p: Provider, c0: map<string, Coords>, c1: map<string, Coords>, hint: string,
                                   day: DayPlan)
    requires SameResolution(p, c0, c1, hint)
    requires DayAnnotated(p, c1, hint, day)
    ensures DayAnnotated(p, c0, hint, day)
  {
    forall k | 0 <= k < |day.activities|
      ensures LegAt(p, c1, hint, day.activities, k) == LegAt(p, c0, hint, day.activities, k)
    {
      LegsFollowResolution(p, c0, c1, hint, day.activities, k);
    }
  }

  /** Memoising a provider answer for the city keeps what every address resolves to. */
  lemma {:induction false} MemoKeepsResolution(p: Provider, c0: map<string, Coords>, address: string, hint: string)
    requires address !in c0 && p.geocode(address, CityOr(hint)).Some?
    ensures SameResolution(p, c0, c0[address := p.geocode(address, CityOr(hint)).value], hint)
  {
    var c1 := c0[address := p.geocode(address, CityOr(hint)).value];
    forall a ensures Resolve(p, c1, a, hint) == Resolve(p, c0, a, hint) {
      if a != address {
        assert (a in c1) == (a in c0);
      }
    }
  }

  /** The annotation service: a provider client and an address-to-coordinates memo. */
  class RouteValidatorService {
    const amap: Provider
    /** Coordinates found so far, by address alone; only successful lookups are kept. */
    var geocodeCache: map<string, Coords>

    constructor (amap: Provider)
      ensures this.amap == amap && geocodeCache == map[]
    {
      this.amap := amap;
      geocodeCache := map[];
    }

    /** Coordinates of an address: a memoised answer without asking the provider, otherwise
        the provider's answer for `hint or "北京"`, memoised when it is present. */
    method GetCoords(address: string, hint: string) returns (c: Option<Coords>)
      modifies this`geocodeCache
      ensures c == Resolve(amap, old(geocodeCache), address, hint)
      ensures address in old(geocodeCache) ==> geocodeCache == old(geocodeCache)
      ensures address !in old(geocodeCache) ==>
                geocodeCache == if c.Some? then old(geocodeCache)[address := c.value] else old(geocodeCache)
      ensures SameResolution(amap, old(geocodeCache), geocodeCache, hint)
    {
      if address in geocodeCache {
        return Some(geocodeCache[address]);
      }
      c := amap.geocode(address, CityOr(hint));
      if c.Some? {
        MemoKeepsResolution(amap, geocodeCache, address, hint);
        geocodeCache := geocodeCache[address := c.value];
      }
    }

    /** One activity of a day's pass: its derived fields are reset, its coordinates are
        looked up, and, unless it is the day's first activity, the leg from the previous
        activity's coordinates is written when both ends resolved and the distance lookup
        answered. Returns the coordinates, to be carried to the next activity. */
    method AnnotateActivity(act: Activity, first: bool, prevCoords: Option<Coords>, hint: string)
      returns (coords: Option<Coords>)
      modifies this`geocodeCache, act
      ensures coords == Resolve(amap, old(geocodeCache), act.location, hint)
      ensures HasLeg(act, if first then NoLeg else LegBetween(amap, prevCoords, coords))
      ensures SameResolution(amap, old(geocodeCache), geocodeCache, hint)
      ensures forall a :: a in old(geocodeCache) ==> a in geocodeCache && geocodeCache[a] == old(geocodeCache)[a]
    {
      act.distanceKmFromPrev := None;
      act.driveTimeMinFromPrev := None;
      coords := GetCoords(act.location, hint);
      if first || prevCoords.None? || coords.None? {
        return;
      }
      var drive := amap.driving(prevCoords.value, coords.value);
      if drive.Some? {
        act.distanceKmFromPrev := Some(amap.roundKm(drive.value.distanceM));
        act.driveTimeMinFromPrev := Some(RoundedMinutes(drive.value.durationS));
      }
    }

    /** One day's pass: every activity in turn, the coordinates of the previous activity
        carried along whether or not they resolved. Only this day's activities and the memo
        change. */
    method AnnotateDay(day: DayPlan, hint: string)
      requires NoRepeats(day.activities)
      modifies this`geocodeCache, DayActivities(day)
      ensures DayAnnotated(amap, old(geocodeCache), hint, day)
      ensures SameResolution(amap, old(geocodeCache), geocodeCache, hint)
      ensures forall a :: a in old(geocodeCache) ==> a in geocodeCache && geocodeCache[a] == old(geocodeCache)[a]
    {
      var acts := day.activities;
      NoRepeatsDistinct(acts);
      var prevCoords: Option<Coords> := None;
      for j := 0 to |acts|
        invariant SameResolution(amap, old(geocodeCache), geocodeCache, hint)
        invariant forall a :: a in old(geocodeCache) ==> a in geocodeCache && geocodeCache[a] == old(geocodeCache)[a]
        invariant j > 0 ==> prevCoords == Resolve(amap, old(geocodeCache), acts[j - 1].location, hint)
        invariant forall k :: 0 <= k < j ==> HasLeg(acts[k], LegAt(amap, old(geocodeCache), hint, acts, k))
      {
        ghost var before := geocodeCache;
        prevCoords := AnnotateActivity(acts[j], j == 0, prevCoords, hint);
        assert prevCoords == Resolve(amap, before, acts[j].location, hint);
      }
    }

    /** The whole pass, day by day with the trip's destination (or "北京") as the city. The
        same trip is returned; every day ends up annotated as the memo resolved it when the
        pass began, the memo still resolves every address alike and keeps what it held. */
    method AnnotateTrip(trip: TripPlan) returns (r: TripPlan)
      requires DistinctActivities(trip)
      modifies this`geocodeCache, TripActivities(trip)
      ensures r == trip
      ensures forall d :: 0 <= d < |trip.dailyPlans| ==>
                DayAnnotated(amap, old(geocodeCache), CityOr(trip.destination), trip.dailyPlans[d])
      ensures SameResolution(amap, old(geocodeCache), geocodeCache, CityOr(trip.destination))
      ensures forall a :: a in old(geocodeCache) ==> a in geocodeCache && geocodeCache[a] == old(geocodeCache)[a]
    {
      for i := 0 to |trip.dailyPlans|
        invariant SameResolution(amap, old(geocodeCache), geocodeCache, CityOr(trip.destination))
        invariant forall a :: a in old(geocodeCache) ==> a in geocodeCache && geocodeCache[a] == old(geocodeCache)[a]
        invariant forall d :: 0 <= d < i ==> DayAnnotated(amap, old(geocodeCache), CityOr(trip.destination), trip.dailyPlans[d])
      {
        DayWithinTrip(trip, i);
        DayDistinct(trip, i);
        AnnotateTripDay(trip, i, old(geocodeCache));
      }
      return trip;
    }

    /** Day `i` of the trip's pass, with the city taken from the trip: it gets annotated as the
        memo `c0` of the pass's start resolves it, and the earlier days keep their annotation. */
    method AnnotateTripDay(trip: TripPlan, i: nat, ghost c0: map<string, Coords>)
      requires i < |trip.dailyPlans|
      requires NoRepeats(trip.dailyPlans[i].activities)
      requires forall d :: 0 <= d < i ==> DayActivities(trip.dailyPlans[d]) !! DayActivities(trip.dailyPlans[i])
      requires SameResolution(amap, c0, geocodeCache, CityOr(trip.destination))
      requires forall a :: a in c0 ==> a in geocodeCache && geocodeCache[a] == c0[a]
      requires forall d :: 0 <= d < i ==> DayAnnotated(amap, c0, CityOr(trip.destination), trip.dailyPlans[d])
      modifies this`geocodeCache, DayActivities(trip.dailyPlans[i])
      ensures SameResolution(amap, c0, geocodeCache, CityOr(trip.destination))
      ensures forall a :: a in c0 ==> a in geocodeCache && geocodeCache[a] == c0[a]
      ensures forall d :: 0 <= d < i ==> DayAnnotated(amap, c0, CityOr(trip.destination), trip.dailyPlans[d])
      ensures DayAnnotated(amap, c0, CityOr(trip.destination), trip.dailyPlans[i])
    {
      var hint := CityOr(trip.destination);
      var day := trip.dailyPlans[i];
      ghost var before := geocodeCache;
      AnnotateDay(day, hint);
      AnnotatedFollowsResolution(amap, c0, before, hint, day);
      forall d | 0 <= d < i
        ensures DayAnnotated(amap, c0, hint, trip.dailyPlans[d])
      {
        assert old(DayAnnotated(amap, c0, hint, trip.dailyPlans[d]));
      }
    }
  }

  /** A day's activities are activities of its trip. */
  lemma DayWithinTrip(trip: TripPlan, i: nat)
    requires i < |trip.dailyPlans|
    ensures DayActivities(trip.dailyPlans[i]) <= TripActivities(trip)
  {
    forall a | a in DayActivities(trip.dailyPlans[i]) ensures a in TripActivities(trip) {
      assert trip.dailyPlans[i] in trip.dailyPlans;
    }
  }

  /** In a trip whose activities are distinct, a day repeats none of its activities and
      shares none with an earlier day. */
  lemma DayDistinct(trip: TripPlan, i: nat)
    requires DistinctActivities(trip) && i < |trip.dailyPlans|
    ensures NoRepeats(trip.dailyPlans[i].activities)
    ensures forall d :: 0 <= d < i ==> DayActivities(trip.dailyPlans[d]) !! DayActivities(trip.dailyPlans[i])
  {
  }

  /** Annotating twice in a row: after the second pass every day is still annotated as the
      memo resolved it before the first, so the second pass rewrites the same values. */
  method Reannotate(service: RouteValidatorService, trip: TripPlan)
    requires DistinctActivities(trip)
    modifies service`geocodeCache, TripActivities(trip)
    ensures forall d :: 0 <= d < |trip.dailyPlans| ==>
              DayAnnotated(service.amap, old(service.geocodeCache), CityOr(trip.destination), trip.dailyPlans[d])
  {
    var first := service.AnnotateTrip(trip);
    ghost var between := service.geocodeCache;
    var second := service.AnnotateTrip(first);
    forall d | 0 <= d < |trip.dailyPlans|
      ensures DayAnnotated(service.amap, old(service.geocodeCache), CityOr(trip.destination), trip.dailyPlans[d])
    {
      AnnotatedFollowsResolution(service.amap, old(service.geocodeCache), between, CityOr(trip.destination), trip.dailyPlans[d]);
    }
  }
}
