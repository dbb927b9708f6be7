/** The planning pipeline's state and its nodes. Each node reads the state and returns the
    keys it updates; `Apply` writes them over the state. The trip generator, the weather
    look-ups and the open/closed status of activities are parameters. */
module GraphNodes {
  import opened Wrappers
  import opened Schemas
  import opened RouteValidator

  /** The weather attached to the state, kept as its key/value data. */
  datatype WeatherForecast = WeatherForecast(data: map<string, string>)

  /** One violation record, `{"type": kind, "name": name}`. */
  datatype Violation = Violation(kind: string, name: string)

  /** The kind of violation recorded for a closed activity. */
  const ClosedKind: string := "closed"

  /** The pipeline state. */
  datatype PlanState = PlanState(
    request: TripRequest,
    plan: Option<TripPlan>,
    weather: Option<WeatherForecast>,
    violations: seq<Violation>,
    sources: seq<map<string, string>>,
    repaired: bool)

  /** A fresh state for a request. */
  function InitialState(request: TripRequest): (s: PlanState)
    ensures s.request == request && s.plan.None? && s.weather.None?
    ensures s.violations == [] && s.sources == [] && !s.repaired
  {
    PlanState(request, None, None, [], [], false)
  }

  /** The keys a node returns; `None` means the key is absent. */
  datatype Update = Update(
    plan: Option<TripPlan>,
    weather: Option<WeatherForecast>,
    violations: Option<seq<Violation>>,
    repaired: Option<bool>)

  /** The empty update `{}`. */
  const NoUpdate: Update := Update(None, None, None, None)

  /** The state after an update: every key present overwrites its field; the rest stay. */
  function Apply(s: PlanState, u: Update): (t: PlanState)
    ensures t.request == s.request && t.sources == s.sources
    ensures t.plan == (if u.plan.Some? then u.plan else s.plan)
    ensures t.weather == (if u.weather.Some? then u.weather else s.weather)
    ensures t.violations == (if u.violations.Some? then u.violations.value else s.violations)
    ensures t.repaired == (if u.repaired.Some? then u.repaired.value else s.repaired)
  {
    PlanState(
      s.request,
      if u.plan.Some? then u.plan else s.plan,
      if u.weather.Some? then u.weather else s.weather,
      if u.violations.Some? then u.violations.value else s.violations,
      s.sources,
      if u.repaired.Some? then u.repaired.value else s.repaired)
  }

  /** Applying the same update twice is applying it once. */
  lemma ApplyIdempotent(s: PlanState, u: Update)
    ensures Apply(Apply(s, u), u) == Apply(s, u)
  {
  }

  // ---------------------------------------------------------------------------------------
  // Nodes
  // ---------------------------------------------------------------------------------------

  /** The planner: a plan generated for the request (a failure propagates). */
  function PlannerNode(s: PlanState, generate: TripRequest -> Result<TripPlan>): (r: Result<Update>)
    ensures r.Ok? <==> generate(s.request).Ok?
    ensures r.Ok? ==> Apply(s, r.value) == s.(plan := Some(generate(s.request).value))
    ensures r.ValueError? ==> r.message == generate(s.request).message
  {
    var plan := generate(s.request);
    if plan.Ok? then Ok(Update(Some(plan.value), None, None, None)) else ValueError(plan.message)
  }

  /** The retriever returns nothing. */
  function RetrieverNode(s: PlanState): (u: Update)
    ensures Apply(s, u) == s
  {
    NoUpdate
  }

  /** The scheduler returns nothing: the generated order is kept. */
  function SchedulerNode(s: PlanState): (u: Update)
    ensures Apply(s, u) == s
  {
    NoUpdate
  }

  /** The repair node only marks the state as repaired. */
  function RepairNode(s: PlanState): (u: Update)
    ensures Apply(s, u) == s.(repaired := true)
  {
    Update(None, None, None, Some(true))
  }

  /** The finalize node returns nothing. */
  function FinalizeNode(s: PlanState): (u: Update)
    ensures Apply(s, u) == s
  {
    NoUpdate
  }

  /** The destination and length the weather is asked for: "Beijing" for an empty
      destination and 3 for a zero length. */
  function WeatherQuery(request: TripRequest): (q: (string, int))
    ensures q.0 == (if request.destination != "" then request.destination else "Beijing")
    ensures q.1 == (if request.durationDays != 0 then request.durationDays else 3)
  {
    (if request.destination != "" then request.destination else "Beijing",
     if request.durationDays != 0 then request.durationDays else 3)
  }

  /** A request always has between 1 and 30 days, so the default length is never used. */
  lemma WeatherDaysFromRequest(request: TripRequest)
    ensures WeatherQuery(request).1 == request.durationDays
  {
  }

  /** The weather node: the real forecast when there is one, else the fallback for the same
      query. Only the weather changes. */
  function WeatherNode(s: PlanState, live: (string, int) -> Option<WeatherForecast>,
                       fallback: (string, int) -> WeatherForecast): (u: Update)
    ensures var q := WeatherQuery(s.request);
            Apply(s, u) == s.(weather := Some(if live(q.0, q.1).Some? then live(q.0, q.1).value
                                              else fallback(q.0, q.1)))
  {
    var q := WeatherQuery(s.request);
    var weather := live(q.0, q.1);
    if weather.Some? then Update(None, weather, None, None)
    else Update(None, Some(fallback(q.0, q.1)), None, None)
  }

  // ---------------------------------------------------------------------------------------
  // Violations
  // ---------------------------------------------------------------------------------------

  /** Python's `True`, `False` and `None` for whether an activity is open. */
  datatype TriState = IsTrue | IsFalse | Unknown

  /** The violations of a day's activities, in order: one per activity that is known to be closed. */
  function DayViolations(acts: seq<Activity>, openOk: Activity -> TriState): (vs: seq<Violation>)
    ensures |vs| <= |acts|
  {
    if |acts| == 0 then []
    else
      var last := acts[|acts| - 1];
      DayViolations(acts[..|acts| - 1], openOk)
      + (if openOk(last) == IsFalse then [Violation(ClosedKind, last.name)] else [])
  }

  /** The violations of whole days, day after day. */
  function TripViolations(days: seq<DayPlan>, openOk: Activity -> TriState): seq<Violation> {
    if |days| == 0 then []
    else TripViolations(days[..|days| - 1], openOk) + DayViolations(days[|days| - 1].activities, openOk)
  }

  /** How many of the activities are known to be closed, counted from the front. */
  function ClosedCount(acts: seq<Activity>, openOk: Activity -> TriState): nat {
    if |acts| == 0 then 0
    else (if openOk(acts[0]) == IsFalse then 1 else 0) + ClosedCount(acts[1..], openOk)
  }

  /** The violations of consecutive stretches of a day follow each other: the records keep
      the order of the activities, and each activity contributes once. */
  lemma {:induction false} DayViolationsAppend(a: seq<Activity>, b: seq<Activity>, openOk: Activity -> TriState)
    ensures DayViolations(a + b, openOk) == DayViolations(a, openOk) + DayViolations(b, openOk)
    decreases |b|
  {
    if |b| == 0 {
      assert a + b == a;
    } else {
      var init := b[..|b| - 1];
      DayViolationsAppend(a, init, openOk);
      assert (a + b)[..|a + b| - 1] == a + init;
      assert (a + b)[|a + b| - 1] == b[|b| - 1];
    }
  }

  /** A single activity gives its `closed` record exactly when its status is False. */
  lemma DayViolationsOne(x: Activity, openOk: Activity -> TriState)
    ensures DayViolations([x], openOk) == if openOk(x) == IsFalse then [Violation(ClosedKind, x.name)] else []
  {
    assert [x][..0] == [];
  }

  /** A day gives exactly one record per activity whose status is False. */
  lemma {:induction false} DayViolationsCount(acts: seq<Activity>, openOk: Activity -> TriState)
    ensures |DayViolations(acts, openOk)| == ClosedCount(acts, openOk)
    decreases |acts|
  {
    if |acts| > 0 {
      assert acts == [acts[0]] + acts[1..];
      DayViolationsAppend([acts[0]], acts[1..], openOk);
      DayViolationsOne(acts[0], openOk);
      DayViolationsCount(acts[1..], openOk);
    }
  }

  /** The violations of consecutive stretches of days follow each other, day after day. */
  lemma {:induction false} TripViolationsAppend(a: seq<DayPlan>, b: seq<DayPlan>, openOk: Activity -> TriState)
    ensures TripViolations(a + b, openOk) == TripViolations(a, openOk) + TripViolations(b, openOk)
    decreases |b|
  {
    if |b| == 0 {
      assert a + b == a;
    } else {
      var init := b[..|b| - 1];
      TripViolationsAppend(a, init, openOk);
      assert (a + b)[..|a + b| - 1] == a + init;
      assert (a + b)[|a + b| - 1] == b[|b| - 1];
    }
  }

  /** A one-day trip has exactly that day's violations. */
  lemma TripViolationsOne(day: DayPlan, openOk: Activity -> TriState)
    ensures TripViolations([day], openOk) == DayViolations(day.activities, openOk)
  {
    assert [day][..0] == [];
  }

  /** A day's violations are exactly the closed records of its activities whose status is
      False; a True or unknown status never makes one. */
  lemma {:induction false} DayViolationsMembers(acts: seq<Activity>, openOk: Activity -> TriState, v: Violation)
    ensures v in DayViolations(acts, openOk) <==>
              exists k :: 0 <= k < |acts| && openOk(acts[k]) == IsFalse && v == Violation(ClosedKind, acts[k].name)
    decreases |acts|
  {
    if |acts| > 0 {
      var init := acts[..|acts| - 1];
      DayViolationsMembers(init, openOk, v);
      if exists k :: 0 <= k < |init| && openOk(init[k]) == IsFalse && v == Violation(ClosedKind, init[k].name) {
        var k :| 0 <= k < |init| && openOk(init[k]) == IsFalse && v == Violation(ClosedKind, init[k].name);
        assert acts[k] == init[k];
      }
      if exists k :: 0 <= k < |acts| && openOk(acts[k]) == IsFalse && v == Violation(ClosedKind, acts[k].name) {
        var k :| 0 <= k < |acts| && openOk(acts[k]) == IsFalse && v == Violation(ClosedKind, acts[k].name);
        if k < |init| {
          assert init[k] == acts[k];
        }
      }
    }
  }

  /** The trip's violations are exactly the closed records of its closed activities, over all days. */
  lemma {:induction false} TripViolationsMembers(days: seq<DayPlan>, openOk: Activity -> TriState, v: Violation)
    ensures v in TripViolations(days, openOk) <==>
              exists d, k :: 0 <= d < |days| && 0 <= k < |days[d].activities|
                && openOk(days[d].activities[k]) == IsFalse && v == Violation(ClosedKind, days[d].activities[k].name)
    decreases |days|
  {
    if |days| > 0 {
      var init := days[..|days| - 1];
      var last := days[|days| - 1];
      TripViolationsMembers(init, openOk, v);
      DayViolationsMembers(last.activities, openOk, v);
      if exists d, k :: 0 <= d < |init| && 0 <= k < |init[d].activities|
           && openOk(init[d].activities[k]) == IsFalse && v == Violation(ClosedKind, init[d].activities[k].name) {
        var d, k :| 0 <= d < |init| && 0 <= k < |init[d].activities|
           && openOk(init[d].activities[k]) == IsFalse && v == Violation(ClosedKind, init[d].activities[k].name);
        assert days[d] == init[d];
      }
      if exists d, k :: 0 <= d < |days| && 0 <= k < |days[d].activities|
           && openOk(days[d].activities[k]) == IsFalse && v == Violation(ClosedKind, days[d].activities[k].name) {
        var d, k :| 0 <= d < |days| && 0 <= k < |days[d].activities|
           && openOk(days[d].activities[k]) == IsFalse && v == Violation(ClosedKind, days[d].activities[k].name);
        if d < |init| {
          assert init[d] == days[d];
        } else {
          assert last.activities[k] == days[d].activities[k];
        }
      }
    }
  }

  /** Collects the violations day by day and activity by activity. */
  method CollectViolations(days: seq<DayPlan>, openOk: Activity -> TriState) returns (vs: seq<Violation>)
    ensures vs == TripViolations(days, openOk)
  {
    vs := [];
    for i := 0 to |days|
      invariant vs == TripViolations(days[..i], openOk)
    {
      var acts := days[i].activities;
      for j := 0 to |acts|
        invariant vs == TripViolations(days[..i], openOk) + DayViolations(acts[..j], openOk)
      {
        assert acts[..j + 1][..j] == acts[..j];
        if openOk(acts[j]) == IsFalse {
          vs := vs + [Violation(ClosedKind, acts[j].name)];
        }
      }
      assert days[..i + 1][..i] == days[..i] && acts[..|acts|] == acts;
    }
    assert days[..|days|] == days;
  }

  /** The activity objects of the state's plan. */
  function PlanActivities(s: PlanState): set<object> {
    if s.plan.Some? then TripActivities(s.plan.value) else {}
  }

  /** The validators node: nothing without a plan; otherwise the plan annotated with driving
      legs, and the violations of its activities. */
  method ValidatorsNode(s: PlanState, validator: RouteValidatorService, openOk: Activity -> TriState)
    returns (u: Update)
    requires s.plan.Some? ==> DistinctActivities(s.plan.value)
    modifies validator`geocodeCache, PlanActivities(s)
    ensures s.plan.None? ==> u == NoUpdate
    ensures s.plan.Some? ==>
              u == Update(s.plan, None, Some(TripViolations(s.plan.value.dailyPlans, openOk)), None)
              && forall d :: 0 <= d < |s.plan.value.dailyPlans| ==>
                   DayAnnotated(validator.amap, old(validator.geocodeCache), CityOr(s.plan.value.destination),
                                s.plan.value.dailyPlans[d])
  {
    if s.plan.None? {
      return NoUpdate;
    }
    var annotated := validator.AnnotateTrip(s.plan.value);
    var violations := CollectViolations(annotated.dailyPlans, openOk);
    u := Update(Some(annotated), None, Some(violations), None);
  }

  // ---------------------------------------------------------------------------------------
  // The status read as written
  // ---------------------------------------------------------------------------------------

  /** An exception raised by the node as written. */
  datatype Raised<T> = Returned(value: T) | AttributeError(message: string)

  /** The text of the error raised when the status is read. */
  const NoOpenOkMessage: string := "'Activity' object has no attribute 'open_ok'"

  /** The activity record carries no open/closed field, so reading it finds nothing. */
  function OpenOkField(a: Activity): Option<TriState> {
    None
  }

  /** Some day of the trip has an activity. */
  predicate HasActivity(days: seq<DayPlan>) {
    exists d :: 0 <= d < |days| && |days[d].activities| > 0
  }

  /** The violation loop as written, reading the status as an attribute of the activity: the
      first activity raises, so any trip with an activity fails, and one without gives []. */
  method CollectViolationsAsWritten(days: seq<DayPlan>) returns (r: Raised<seq<Violation>>)
    ensures r == if HasActivity(days) then AttributeError(NoOpenOkMessage) else Returned([])
  {
    var vs: seq<Violation> := [];
    for i := 0 to |days|
      invariant vs == [] && forall d :: 0 <= d < i ==> |days[d].activities| == 0
    {
      var acts := days[i].activities;
      for j := 0 to |acts|
        invariant vs == [] && j == 0
      {
        var field := OpenOkField(acts[j]);
        if field.None? {
          return AttributeError(NoOpenOkMessage);
        }
      }
    }
    return Returned(vs);
  }

  /** A one-day trip with a single activity already fails as written, while the status read
      as a tri-state (unknown when absent) gives no violation for it. */
  method OneActivityScenario(day: DayPlan, trip: TripPlan) returns (asWritten: Raised<seq<Violation>>, corrected: seq<Violation>)
    requires |day.activities| == 1 && trip.dailyPlans == [day]
    ensures asWritten == AttributeError(NoOpenOkMessage)
    ensures corrected == []
  {
    assert |trip.dailyPlans[0].activities| > 0;
    asWritten := CollectViolationsAsWritten(trip.dailyPlans);
    corrected := CollectViolations(trip.dailyPlans, (a: Activity) => Unknown);
    assert trip.dailyPlans[..0] == [];
    assert day.activities[..0] == [];
  }
}
