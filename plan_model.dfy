/** The planning data model shared by both planners: tasks, vehicles and the
    plan they produce, plus the configuration values the planners read. */
module PlanModel {
  import opened Wrappers
  import opened TimeFormat

  /** A coordinate. The planners only hand coordinates to the travel-time
      and distance functions, so their representation does not matter here. */
  datatype Coord = Coord(lat: int, lon: int)

  /** A time window as the upstream API sends it: two "HH:MM" strings. */
  datatype TimeWindow = TimeWindow(start: string, end: string)

  datatype TaskKind = Pickup | Delivery

  /** A task. `serviceMinutes` is the optional dwell time the solvers read;
      `None` and `Some(0)` both fall back to the configured default. */
  datatype Task = Task(
    id: string,
    kind: TaskKind,
    location: Coord,
    window: Option<TimeWindow>,
    size: int,
    serviceMinutes: Option<nat>)

  datatype Vehicle = Vehicle(
    id: string,
    plate: string,
    capacity: int,
    office: string,
    division: Option<string>)

  /** One vehicle's route: task ids in visiting order, their formatted ETAs,
      and the route's duration in minutes. */
  datatype VehiclePlan = VehiclePlan(
    vehicleId: string,
    tasksOrder: seq<string>,
    eta: seq<string>,
    totalMinutes: int)

  datatype Plan = Plan(
    depot: Coord,
    vehiclePlans: seq<VehiclePlan>,
    unscheduled: seq<string>,
    objectiveMinutes: int)

  /** The configuration values the planners read from `config`: planning
      horizon, default service time and the depot used by the orchestrator. */
  datatype Config = Config(
    horizonStart: string,
    horizonEnd: string,
    serviceDefault: nat,
    depot: Coord)

  /** Travel time in whole minutes between two coordinates, at the configured
      average speed. */
  type TravelTime = (Coord, Coord) -> nat

  /** `task.service_minutes or SERVICE_TIME_MINUTES_DEFAULT`: Python's `or`
      treats both a missing value and 0 as absent. */
  function ServiceOf(t: Task, default: nat): nat
  {
    if t.serviceMinutes.Some? && t.serviceMinutes.value != 0 then t.serviceMinutes.value else default
  }

  /** The task's window, if any, is made of two parseable times. */
  predicate WindowParses(t: Task)
  {
    t.window.None? || (ParseTime(t.window.value.start).Some? && ParseTime(t.window.value.end).Some?)
  }

  predicate WindowsParse(ts: seq<Task>)
  {
    forall t :: t in ts ==> WindowParses(t)
  }

  function WindowStart(t: Task): nat
    requires t.window.Some? && WindowParses(t)
  {
    ParseTime(t.window.value.start).value
  }

  function WindowEnd(t: Task): nat
    requires t.window.Some? && WindowParses(t)
  {
    ParseTime(t.window.value.end).value
  }

  function Ids(ts: seq<Task>): seq<string>
  {
    seq(|ts|, i requires 0 <= i < |ts| => ts[i].id)
  }

  lemma IdsAppend(a: seq<Task>, b: seq<Task>)
    ensures Ids(a + b) == Ids(a) + Ids(b)
  {
  }

  /** Removing the task at `idx` removes exactly its id. */
  lemma IdsRemove(ts: seq<Task>, idx: nat)
    requires idx < |ts|
    ensures multiset(Ids(ts)) == multiset(Ids(ts[..idx] + ts[idx + 1..])) + multiset{ts[idx].id}
  {
    assert ts == ts[..idx] + [ts[idx]] + ts[idx + 1..];
    IdsAppend(ts[..idx] + [ts[idx]], ts[idx + 1..]);
    IdsAppend(ts[..idx], [ts[idx]]);
    IdsAppend(ts[..idx], ts[idx + 1..]);
  }

  function FormatAll(minutes: seq<nat>): seq<string>
  {
    seq(|minutes|, i requires 0 <= i < |minutes| => FormatTime(minutes[i]))
  }

  /** All task ids on all routes, route after route. */
  function AssignedIds(plans: seq<VehiclePlan>): seq<string>
  {
    if plans == [] then [] else plans[0].tasksOrder + AssignedIds(plans[1..])
  }

  /** `sum(p.total_minutes for p in plans)`. */
  function SumMinutes(plans: seq<VehiclePlan>): int
  {
    if plans == [] then 0 else plans[0].totalMinutes + SumMinutes(plans[1..])
  }

  /** Every input task id is either on a route or unscheduled, as often as it
      occurs in the input. */
  predicate Conserves(tasks: seq<Task>, plan: Plan)
  {
    multiset(AssignedIds(plan.vehiclePlans)) + multiset(plan.unscheduled) == multiset(Ids(tasks))
  }

  /** No id occurs twice. */
  predicate Distinct(s: seq<string>)
  {
    forall x :: x in multiset(s) ==> multiset(s)[x] <= 1
  }

  /** With distinct input ids, conservation means no id is on two routes, twice
      on one route, or both on a route and unscheduled. */
  lemma ConservedIdsAreDistinct(tasks: seq<Task>, plan: Plan)
    requires Conserves(tasks, plan)
    requires Distinct(Ids(tasks))
    ensures Distinct(AssignedIds(plan.vehiclePlans)) && Distinct(plan.unscheduled)
    ensures forall x :: x in AssignedIds(plan.vehiclePlans) ==> x !in plan.unscheduled
    ensures |AssignedIds(plan.vehiclePlans)| + |plan.unscheduled| == |tasks|
  {
    var a, u := multiset(AssignedIds(plan.vehiclePlans)), multiset(plan.unscheduled);
    assert forall x :: a[x] + u[x] == multiset(Ids(tasks))[x];
    assert |a + u| == |multiset(Ids(tasks))|;
    forall x | x in AssignedIds(plan.vehiclePlans) ensures x !in plan.unscheduled {
      assert x in a;
      assert x in multiset(Ids(tasks));
    }
  }
}
