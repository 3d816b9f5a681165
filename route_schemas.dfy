/** The input schemas of the route API: route-task links, routes to create
    (with their defaults), and a day's schedule, whose shared date is put into
    every route dict that lacks one before the routes are validated. Request
    bodies are JSON values; validation is strict (no coercion between JSON
    types), and dates and datetimes are kept as the strings that carry them. */
module RouteSchemas {
  import opened Wrappers

  datatype Json =
    | JNull
    | JBool(b: bool)
    | JNum(n: int)
    | JStr(s: string)
    | JList(items: seq<Json>)
    | JObj(fields: map<string, Json>)

  /** `RouteTaskLinkCreate`. */
  datatype TaskLinkInput = TaskLinkInput(
    taskId: string,
    order: int,
    estimatedStart: Option<string>,
    estimatedEnd: Option<string>)

  /** `RouteCreateSchema`. */
  datatype RouteInput = RouteInput(
    date: string,
    vehicleId: string,
    crewId: Option<string>,
    officeId: string,
    totalDistance: int,
    totalDuration: int,
    tasks: seq<TaskLinkInput>)

  /** `dict.setdefault(key, value)`: the dict with `key` bound to `value`
      unless it already has `key`. */
  function SetDefault(d: map<string, Json>, key: string, value: Json): map<string, Json>
  {
    if key in d then d else d[key := value]
  }

  /** What `_apply_date` leaves in the routes list: with a schedule date,
      every route dict defaults its "date" to it; without one, nothing
      changes. */
  function WithDate(routes: seq<map<string, Json>>, date: Option<string>): seq<map<string, Json>>
  {
    if date.None? then routes
    else seq(|routes|, i requires 0 <= i < |routes| => SetDefault(routes[i], "date", JStr(date.value)))
  }

  // ---------------------------------------------------------------------------
  // Validation

  /** A required string field. */
  function RequiredString(d: map<string, Json>, key: string): Option<string>
  {
    if key in d && d[key].JStr? then Some(d[key].s) else None
  }

  /** An optional `str | None` field, None by default: `Some(None)` when
      absent or null, `None` when it has another type. */
  function OptionalString(d: map<string, Json>, key: string): Option<Option<string>>
  {
    if key !in d || d[key].JNull? then Some(None)
    else if d[key].JStr? then Some(Some(d[key].s))
    else None
  }

  /** An optional number field with default 0. */
  function NumberOrZero(d: map<string, Json>, key: string): Option<int>
  {
    if key !in d then Some(0)
    else if d[key].JNum? then Some(d[key].n)
    else None
  }

  function ParseLink(j: Json): Option<TaskLinkInput>
  {
    if !j.JObj? then None
    else
      var f := j.fields;
      var taskId := RequiredString(f, "task_id");
      var start := OptionalString(f, "estimated_start");
      var end := OptionalString(f, "estimated_end");
      if taskId.None? || "order" !in f || !f["order"].JNum? || start.None? || end.None? then None
      else Some(TaskLinkInput(taskId.value, f["order"].n, start.value, end.value))
  }

  function ParseLinks(items: seq<Json>): Option<seq<TaskLinkInput>>
  {
    if items == [] then Some([])
    else
      var first := ParseLink(items[0]);
      var rest := ParseLinks(items[1..]);
      if first.None? || rest.None? then None else Some([first.value] + rest.value)
  }

  /** `RouteCreateSchema` validation of a route dict: `date`, `vehicle_id`
      and `office_id` are required; `crew_id` defaults to None, the totals to
      0 and `tasks` to the empty list; unknown keys are ignored. */
  function ParseRoute(d: map<string, Json>): Option<RouteInput>
  {
    var date := RequiredString(d, "date");
    var vehicle := RequiredString(d, "vehicle_id");
    var office := RequiredString(d, "office_id");
    var crew := OptionalString(d, "crew_id");
    var distance := NumberOrZero(d, "total_distance");
    var duration := NumberOrZero(d, "total_duration");
    var tasks := if "tasks" !in d then Some([])
                 else if d["tasks"].JList? then ParseLinks(d["tasks"].items)
                 else None;
    if date.None? || vehicle.None? || office.None? || crew.None? || distance.None? || duration.None? || tasks.None?
    then None
    else Some(RouteInput(date.value, vehicle.value, crew.value, office.value, distance.value, duration.value, tasks.value))
  }

  function ParseRoutes(routes: seq<map<string, Json>>): Option<seq<RouteInput>>
  {
    if routes == [] then Some([])
    else
      var first := ParseRoute(routes[0]);
      var rest := ParseRoutes(routes[1..]);
      if first.None? || rest.None? then None else Some([first.value] + rest.value)
  }

  /** `ScheduleSubmitSchema`: a valid date, then the routes validated after
      the date has been put into them. */
  function ParseSchedule(date: Option<string>, routes: seq<map<string, Json>>): Option<(string, seq<RouteInput>)>
  {
    var parsed := ParseRoutes(WithDate(routes, date));
    if date.None? || parsed.None? then None else Some((date.value, parsed.value))
  }

  // ---------------------------------------------------------------------------
  // Properties

  /** `setdefault` binds the key, keeps an existing value and touches no
      other key. */
  lemma SetDefaultKeeps(d: map<string, Json>, key: string, value: Json)
    ensures var r := SetDefault(d, key, value);
      && r.Keys == d.Keys + {key}
      && r[key] == (if key in d then d[key] else value)
      && forall k :: k in d && k != key ==> r[k] == d[k]
  {
  }

  /** Date injection keeps the list's length and order; with a schedule
      date every route has a "date", its own if it had one and the schedule's
      otherwise, and no other key changes; without one the list is unchanged. */
  lemma WithDateFacts(routes: seq<map<string, Json>>, date: Option<string>)
    ensures var r := WithDate(routes, date);
      && |r| == |routes|
      && (date.None? ==> r == routes)
      && (date.Some? ==>
            forall i :: 0 <= i < |routes| ==>
              && r[i].Keys == routes[i].Keys + {"date"}
              && r[i]["date"] == (if "date" in routes[i] then routes[i]["date"] else JStr(date.value))
              && forall k :: k in routes[i] && k != "date" ==> r[i][k] == routes[i][k])
  {
  }

  /** A route dict without a date fails validation on its own; after the
      injection it validates with the schedule's date, and a route with its
      own date validates exactly as before. */
  lemma InjectedDate(d: map<string, Json>, date: string)
    ensures "date" !in d ==> ParseRoute(d).None?
    ensures "date" !in d && ParseRoute(SetDefault(d, "date", JStr(date))).Some? ==>
              ParseRoute(SetDefault(d, "date", JStr(date))).value.date == date
    ensures "date" in d ==> ParseRoute(SetDefault(d, "date", JStr(date))) == ParseRoute(d)
  {
  }

  /** Validating a list validates each route in turn, and succeeds exactly
      when every route does. */
  lemma {:induction false} ParseRoutesEach(routes: seq<map<string, Json>>)
    ensures ParseRoutes(routes).Some? <==> forall i :: 0 <= i < |routes| ==> ParseRoute(routes[i]).Some?
    ensures ParseRoutes(routes).Some? ==>
      && |ParseRoutes(routes).value| == |routes|
      && forall i :: 0 <= i < |routes| ==> ParseRoutes(routes).value[i] == ParseRoute(routes[i]).value
  {
    if routes != [] {
      ParseRoutesEach(routes[1..]);
      if ParseRoutes(routes).Some? {
        assert forall i :: 1 <= i < |routes| ==> routes[1..][i - 1] == routes[i];
      } else if ParseRoute(routes[0]).Some? {
        var i :| 0 <= i < |routes[1..]| && ParseRoute(routes[1..][i]).None?;
        assert routes[1..][i] == routes[i + 1];
      }
    }
  }

  /** Every route of a valid schedule carries the schedule's date unless it
      named its own. */
  lemma ScheduleDates(date: Option<string>, routes: seq<map<string, Json>>)
    requires ParseSchedule(date, routes).Some?
    ensures var s := ParseSchedule(date, routes).value;
      && s.0 == date.value && |s.1| == |routes|
      && forall i :: 0 <= i < |routes| ==>
           if "date" in routes[i] then routes[i]["date"] == JStr(s.1[i].date) else s.1[i].date == date.value
  {
    var injected := WithDate(routes, date);
    ParseRoutesEach(injected);
    forall i | 0 <= i < |routes|
      ensures var r := ParseRoutes(injected).value[i];
        if "date" in routes[i] then routes[i]["date"] == JStr(r.date) else r.date == date.value
    {
      assert injected[i] == SetDefault(routes[i], "date", JStr(date.value));
      InjectedDate(routes[i], date.value);
    }
  }

  /** The defaults: a route dict with only the required fields validates with
      no crew, zero totals and no tasks. */
  lemma RouteDefaults(date: string, vehicle: string, office: string)
    ensures ParseRoute(map["date" := JStr(date), "vehicle_id" := JStr(vehicle), "office_id" := JStr(office)])
         == Some(RouteInput(date, vehicle, None, office, 0, 0, []))
  {
    var d := map["date" := JStr(date), "vehicle_id" := JStr(vehicle), "office_id" := JStr(office)];
    assert "crew_id" !in d && "total_distance" !in d && "total_duration" !in d && "tasks" !in d;
  }

  // ---------------------------------------------------------------------------
  // The validator

  /** `_apply_date`: `setdefault` on every route dict, in place; the same
      list is returned. */
  method ApplyDate(routes: array<map<string, Json>>, date: Option<string>) returns (result: array<map<string, Json>>)
    modifies routes
    ensures result == routes
    ensures routes[..] == WithDate(old(routes[..]), date)
  {
    if date.Some? {
      for i := 0 to routes.Length
        invariant routes[..i] == WithDate(old(routes[..]), date)[..i]
        invariant routes[i..] == old(routes[i..])
      {
        routes[i] := SetDefault(routes[i], "date", JStr(date.value));
      }
    }
    return routes;
  }
}
