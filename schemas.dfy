/** The itinerary data model: activity types, activities, day plans, trip plans and trip requests. */
module Schemas {
  import opened Wrappers

  /** The eight kinds of activity an itinerary may schedule. */
  datatype ActivityType =
    | Sightseeing | Dining | Shopping | Entertainment
    | Transportation | Accommodation | Culture | Nature
  {
    /** The wire value of the kind. */
    function Value(): string {
      match this
      case Sightseeing => "sightseeing"
      case Dining => "dining"
      case Shopping => "shopping"
      case Entertainment => "entertainment"
      case Transportation => "transportation"
      case Accommodation => "accommodation"
      case Culture => "culture"
      case Nature => "nature"
    }
  }

  /** Every activity kind, in declaration order. */
  const AllActivityTypes: seq<ActivityType> :=
    [Sightseeing, Dining, Shopping, Entertainment, Transportation, Accommodation, Culture, Nature]

  /** Reads a wire value back into an activity kind; any other text is rejected. */
  function ParseActivityType(s: string): (r: Option<ActivityType>)
    ensures r.Some? ==> r.value.Value() == s
    ensures r.None? ==> forall t: ActivityType :: t.Value() != s
  {
    if s == "sightseeing" then Some(Sightseeing)
    else if s == "dining" then Some(Dining)
    else if s == "shopping" then Some(Shopping)
    else if s == "entertainment" then Some(Entertainment)
    else if s == "transportation" then Some(Transportation)
    else if s == "accommodation" then Some(Accommodation)
    else if s == "culture" then Some(Culture)
    else if s == "nature" then Some(Nature)
    else None
  }

  /** There are exactly eight kinds, and their wire values are pairwise distinct,
      so a kind survives the trip through its wire value. */
  lemma ActivityTypeValues(t: ActivityType)
    ensures t in AllActivityTypes && |AllActivityTypes| == 8
    ensures forall i, j :: 0 <= i < j < 8 ==> AllActivityTypes[i].Value() != AllActivityTypes[j].Value()
    ensures ParseActivityType(t.Value()) == Some(t)
  {
  }

  /** One scheduled visit. The identity fields are fixed when the planner's output is parsed;
      the two derived fields are the ones the route annotation rewrites in place. */
  class Activity {
    const name: string
    const kind: ActivityType
    const location: string
    const startTime: string
    const endTime: string
    const durationMinutes: int
    const description: string
    const estimatedCost: Option<int>
    const tips: Option<string>
    /** Driving distance from the previous activity of the same day, in kilometres. */
    var distanceKmFromPrev: Option<real>
    /** Driving time from the previous activity of the same day, in minutes. */
    var driveTimeMinFromPrev: Option<int>

    /** Parsing an activity that does not carry the derived fields leaves both unset. */
    constructor (name: string, kind: ActivityType, location: string, startTime: string,
                 endTime: string, durationMinutes: int, description: string,
                 estimatedCost: Option<int>, tips: Option<string>)
      ensures this.name == name && this.kind == kind && this.location == location
      ensures this.startTime == startTime && this.endTime == endTime
      ensures this.durationMinutes == durationMinutes && this.description == description
      ensures this.estimatedCost == estimatedCost && this.tips == tips
      ensures distanceKmFromPrev == None && driveTimeMinFromPrev == None
    {
      this.name := name;
      this.kind := kind;
      this.location := location;
      this.startTime := startTime;
      this.endTime := endTime;
      this.durationMinutes := durationMinutes;
      this.description := description;
      this.estimatedCost := estimatedCost;
      this.tips := tips;
      distanceKmFromPrev := None;
      driveTimeMinFromPrev := None;
    }
  }

  /** One day of the itinerary; the order of `activities` is the visiting order. */
  datatype DayPlan = DayPlan(
    date: string,
    dayTitle: string,
    activities: seq<Activity>,
    dailySummary: string,
    estimatedDailyCost: int)

  /** A whole itinerary; the order of `dailyPlans` is the order of the days. */
  datatype TripPlan = TripPlan(
    destination: string,
    durationDays: int,
    theme: string,
    startDate: string,
    endDate: string,
    dailyPlans: seq<DayPlan>,
    totalEstimatedCost: int,
    generalTips: seq<string>)

  /** The activity objects of one day. */
  function DayActivities(day: DayPlan): set<Activity> {
    set a | a in day.activities
  }

  /** Every activity object of a trip. */
  function TripActivities(trip: TripPlan): set<Activity> {
    set d, a | d in trip.dailyPlans && a in d.activities :: a
  }

  /** No activity object occurs twice in `acts`. */
  predicate NoRepeats(acts: seq<Activity>) {
    |acts| == 0 || (acts[0] !in acts[1..] && NoRepeats(acts[1..]))
  }

  /** Without repeats, distinct positions hold distinct objects. */
  lemma {:induction false} NoRepeatsDistinct(acts: seq<Activity>)
    requires NoRepeats(acts)
    ensures forall i, j :: 0 <= i < j < |acts| ==> acts[i] != acts[j]
  {
    if |acts| > 0 {
      NoRepeatsDistinct(acts[1..]);
      forall i, j | 0 <= i < j < |acts| ensures acts[i] != acts[j] {
        if i == 0 {
          assert acts[j] == acts[1..][j - 1];
        } else {
          assert acts[i] == acts[1..][i - 1] && acts[j] == acts[1..][j - 1];
        }
      }
    }
  }

  /** No activity object occurs at two positions of the trip: none twice within a day and
      none on two days. */
  predicate DistinctActivities(trip: TripPlan) {
    && (forall d :: 0 <= d < |trip.dailyPlans| ==> NoRepeats(trip.dailyPlans[d].activities))
    && (forall d, e :: 0 <= d < e < |trip.dailyPlans|
          ==> DayActivities(trip.dailyPlans[d]) !! DayActivities(trip.dailyPlans[e]))
  }

  /** Allowed trip lengths: one to thirty days. */
  type DurationDays = d: int | 1 <= d <= 30 witness 1

  /** The theme used when a request names none. */
  const DefaultTheme: string := "休闲旅游"

  /** A structured planning request. `durationDays` carries the field's range constraint. */
  datatype TripRequest = TripRequest(
    destination: string,
    durationDays: DurationDays,
    theme: Option<string>,
    budget: Option<int>,
    interests: Option<seq<string>>,
    startDate: Option<string>,
    includeAccommodation: Option<bool>)

  /** Validating a request that gives only the two required fields: the length must lie in
      1..30, and every optional field takes its declared default. */
  function NewTripRequest(destination: string, durationDays: int): (r: Result<TripRequest>)
    ensures r.Ok? <==> 1 <= durationDays <= 30
    ensures r.Ok? ==> r.value.destination == destination && r.value.durationDays == durationDays
    ensures r.Ok? ==> r.value.theme == Some(DefaultTheme) && r.value.budget == None
                      && r.value.interests == Some([]) && r.value.startDate == None
                      && r.value.includeAccommodation == Some(false)
  {
    if 1 <= durationDays <= 30 then
      Ok(TripRequest(destination, durationDays, Some(DefaultTheme), None, Some([]), None, Some(false)))
    else
      ValueError("duration_days must be between 1 and 30")
  }
}
