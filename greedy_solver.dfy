/** The greedy heuristic planner (`solve_plan`): one pass over the vehicles in
    input order; each vehicle scans the tasks still unassigned, in input
    order, and takes every task that fits its remaining capacity and whose
    time window is still open when it gets there. */
module GreedySolver {
  import opened Wrappers
  import opened Strings
  import opened TimeFormat
  import opened PlanModel

  /** The state of one vehicle's scan: tasks not yet taken by anyone, remaining
      capacity, clock, position, and the tasks taken so far with their ETAs. */
  datatype Scan = Scan(
    remaining: seq<Task>,
    cap: int,
    clock: nat,
    loc: Coord,
    accepted: seq<Task>,
    arrivals: seq<nat>)

  /** Arrival at `t`: clock plus travel time, raised to the window start if
      the vehicle would be early. */
  function ArrivalAt(t: Task, clock: nat, loc: Coord, travel: TravelTime): nat
    requires WindowParses(t)
  {
    var arrival := clock + travel(loc, t.location);
    if t.window.Some? && arrival < WindowStart(t) then WindowStart(t) else arrival
  }

  /** The vehicle can take `t`: it fits the remaining capacity and, for a
      windowed task, the (clamped) arrival is not after the window end. */
  predicate Admits(t: Task, cap: int, clock: nat, loc: Coord, travel: TravelTime)
    requires WindowParses(t)
  {
    t.size <= cap && (t.window.None? || ArrivalAt(t, clock, loc, travel) <= WindowEnd(t))
  }

  /** Taking the task at `idx`: pop it, charge its size, record its ETA, and
      move the clock past its service time. */
  function Accept(s: Scan, idx: nat, serviceDefault: nat, travel: TravelTime): Scan
    requires idx < |s.remaining| && WindowParses(s.remaining[idx])
  {
    var t := s.remaining[idx];
    var arrival := ArrivalAt(t, s.clock, s.loc, travel);
    Scan(s.remaining[..idx] + s.remaining[idx + 1..], s.cap - t.size,
         arrival + ServiceOf(t, serviceDefault), t.location,
         s.accepted + [t], s.arrivals + [arrival])
  }

  /** The inner `while idx < len(remaining)` loop from position `idx` on. */
  function ScanFrom(s: Scan, idx: nat, serviceDefault: nat, travel: TravelTime): Scan
    requires idx <= |s.remaining| && WindowsParse(s.remaining)
    decreases |s.remaining| - idx
  {
    if idx == |s.remaining| then s
    else if Admits(s.remaining[idx], s.cap, s.clock, s.loc, travel) then
      ScanFrom(Accept(s, idx, serviceDefault, travel), idx, serviceDefault, travel)
    else
      ScanFrom(s, idx + 1, serviceDefault, travel)
  }

  /** One vehicle's whole scan: full capacity, at the depot, at horizon start. */
  function RouteScan(v: Vehicle, remaining: seq<Task>, start: nat, depot: Coord,
                     serviceDefault: nat, travel: TravelTime): Scan
    requires WindowsParse(remaining)
  {
    ScanFrom(Scan(remaining, v.capacity, start, depot, [], []), 0, serviceDefault, travel)
  }

  /** The scans of all vehicles in order, and the tasks nobody took. */
  datatype Run = Run(scans: seq<Scan>, left: seq<Task>)

  function RunVehicles(vehicles: seq<Vehicle>, remaining: seq<Task>, start: nat, depot: Coord,
                       serviceDefault: nat, travel: TravelTime): (run: Run)
    requires WindowsParse(remaining)
    ensures |run.scans| == |vehicles|
  {
    if vehicles == [] then Run([], remaining)
    else
      var sc := RouteScan(vehicles[0], remaining, start, depot, serviceDefault, travel);
      ScanKeepsRemainingParsed(Scan(remaining, vehicles[0].capacity, start, depot, [], []), 0, serviceDefault, travel);
      var rest := RunVehicles(vehicles[1..], sc.remaining, start, depot, serviceDefault, travel);
      Run([sc] + rest.scans, rest.left)
  }

  /** The plan entry for a finished scan. */
  function RoutePlan(v: Vehicle, sc: Scan, start: nat): VehiclePlan
  {
    VehiclePlan(v.id, Ids(sc.accepted), FormatAll(sc.arrivals), sc.clock - start)
  }

  function RoutePlans(vehicles: seq<Vehicle>, scans: seq<Scan>, start: nat): seq<VehiclePlan>
    requires |scans| == |vehicles|
  {
    seq(|vehicles|, i requires 0 <= i < |vehicles| => RoutePlan(vehicles[i], scans[i], start))
  }

  /** What `solve_plan` demands of its input: the horizon start and every task
      window parse as times. */
  predicate Solvable(tasks: seq<Task>, cfg: Config)
  {
    ParseTime(cfg.horizonStart).Some? && WindowsParse(tasks)
  }

  function GreedyRun(tasks: seq<Task>, vehicles: seq<Vehicle>, depot: Coord, cfg: Config,
                     travel: TravelTime): Run
    requires Solvable(tasks, cfg)
  {
    RunVehicles(vehicles, tasks, ParseTime(cfg.horizonStart).value, depot, cfg.serviceDefault, travel)
  }

  /** The plan `solve_plan` returns. */
  function GreedyPlan(depot: Coord, tasks: seq<Task>, vehicles: seq<Vehicle>, cfg: Config,
                      travel: TravelTime): Plan
    requires Solvable(tasks, cfg)
  {
    var run := GreedyRun(tasks, vehicles, depot, cfg, travel);
    var plans := RoutePlans(vehicles, run.scans, ParseTime(cfg.horizonStart).value);
    Plan(depot, plans, Sort(Ids(run.left)), SumMinutes(plans))
  }

  // ---------------------------------------------------------------------------
  // Properties of one scan

  lemma {:induction false} ScanKeepsRemainingParsed(s: Scan, idx: nat, serviceDefault: nat, travel: TravelTime)
    requires idx <= |s.remaining| && WindowsParse(s.remaining)
    ensures WindowsParse(ScanFrom(s, idx, serviceDefault, travel).remaining)
    decreases |s.remaining| - idx
  {
    if idx < |s.remaining| {
      if Admits(s.remaining[idx], s.cap, s.clock, s.loc, travel) {
        var s' := Accept(s, idx, serviceDefault, travel);
        assert forall t :: t in s'.remaining ==> t in s.remaining;
        ScanKeepsRemainingParsed(s', idx, serviceDefault, travel);
      } else {
        ScanKeepsRemainingParsed(s, idx + 1, serviceDefault, travel);
      }
    }
  }

  /** Conservation within a scan: every task id ends up taken or still
      remaining, and none is lost or duplicated. */
  lemma {:induction false} ScanConserves(s: Scan, idx: nat, serviceDefault: nat, travel: TravelTime)
    requires idx <= |s.remaining| && WindowsParse(s.remaining)
    ensures var r := ScanFrom(s, idx, serviceDefault, travel);
      multiset(Ids(r.accepted)) + multiset(Ids(r.remaining))
        == multiset(Ids(s.accepted)) + multiset(Ids(s.remaining))
    decreases |s.remaining| - idx
  {
    if idx < |s.remaining| {
      if Admits(s.remaining[idx], s.cap, s.clock, s.loc, travel) {
        var s' := Accept(s, idx, serviceDefault, travel);
        assert forall t :: t in s'.remaining ==> t in s.remaining;
        IdsRemove(s.remaining, idx);
        IdsAppend(s.accepted, [s.remaining[idx]]);
        ScanConserves(s', idx, serviceDefault, travel);
      } else {
        ScanConserves(s, idx + 1, serviceDefault, travel);
      }
    }
  }

  /** Sum of the sizes of the tasks taken, in order. */
  function SumSizes(ts: seq<Task>): int
  {
    if ts == [] then 0 else SumSizes(ts[..|ts| - 1]) + ts[|ts| - 1].size
  }

  /** The capacity bookkeeping of a scan: what is left plus what was loaded is
      the vehicle's capacity, and after every acceptance the load so far fits. */
  predicate CapacityKept(s: Scan, capacity: int)
  {
    && s.cap + SumSizes(s.accepted) == capacity
    && forall k :: 0 < k <= |s.accepted| ==> SumSizes(s.accepted[..k]) <= capacity
  }

  lemma {:induction false} ScanKeepsCapacity(s: Scan, idx: nat, serviceDefault: nat, travel: TravelTime, capacity: int)
    requires idx <= |s.remaining| && WindowsParse(s.remaining)
    requires CapacityKept(s, capacity)
    ensures CapacityKept(ScanFrom(s, idx, serviceDefault, travel), capacity)
    decreases |s.remaining| - idx
  {
    if idx < |s.remaining| {
      if Admits(s.remaining[idx], s.cap, s.clock, s.loc, travel) {
        var s' := Accept(s, idx, serviceDefault, travel);
        assert forall t :: t in s'.remaining ==> t in s.remaining;
        var acc := s'.accepted;
        assert acc[..|acc| - 1] == s.accepted;
        forall k | 0 < k <= |acc| ensures SumSizes(acc[..k]) <= capacity {
          if k < |acc| {
            assert acc[..k] == s.accepted[..k];
          } else {
            assert acc[..k] == acc;
          }
        }
        ScanKeepsCapacity(s', idx, serviceDefault, travel, capacity);
      } else {
        ScanKeepsCapacity(s, idx + 1, serviceDefault, travel, capacity);
      }
    }
  }

  /** Every task taken so far with a window has its ETA inside that window. */
  predicate WindowsKept(s: Scan)
  {
    && |s.accepted| == |s.arrivals|
    && WindowsParse(s.accepted)
    && forall k :: 0 <= k < |s.accepted| && s.accepted[k].window.Some? ==>
         WindowStart(s.accepted[k]) <= s.arrivals[k] <= WindowEnd(s.accepted[k])
  }

  lemma {:induction false} ScanKeepsWindows(s: Scan, idx: nat, serviceDefault: nat, travel: TravelTime)
    requires idx <= |s.remaining| && WindowsParse(s.remaining)
    requires WindowsKept(s)
    ensures WindowsKept(ScanFrom(s, idx, serviceDefault, travel))
    decreases |s.remaining| - idx
  {
    if idx < |s.remaining| {
      if Admits(s.remaining[idx], s.cap, s.clock, s.loc, travel) {
        var s' := Accept(s, idx, serviceDefault, travel);
        assert forall t :: t in s'.remaining ==> t in s.remaining;
        assert s.remaining[idx] in s.remaining;
        assert forall t :: t in s'.accepted ==> t in s.accepted || t == s.remaining[idx];
        ScanKeepsWindows(s', idx, serviceDefault, travel);
      } else {
        ScanKeepsWindows(s, idx + 1, serviceDefault, travel);
      }
    }
  }

  // ---------------------------------------------------------------------------
  // Replaying a route: an independent account of clock and ETAs

  datatype Progress = Progress(clock: nat, loc: Coord, arrivals: seq<nat>)

  /** Drive the given tasks in the given order from the depot at `start`:
      the ETAs, final clock and final position. */
  function Replay(route: seq<Task>, start: nat, depot: Coord, serviceDefault: nat, travel: TravelTime): Progress
    requires WindowsParse(route)
  {
    if route == [] then Progress(start, depot, [])
    else
      var p := Replay(route[..|route| - 1], start, depot, serviceDefault, travel);
      var t := route[|route| - 1];
      var arrival := ArrivalAt(t, p.clock, p.loc, travel);
      Progress(arrival + ServiceOf(t, serviceDefault), t.location, p.arrivals + [arrival])
  }

  /** The scan's clock, position and ETAs are those of replaying the tasks it
      took: the tasks it skipped have no influence on them. */
  predicate FollowsReplay(s: Scan, start: nat, depot: Coord, serviceDefault: nat, travel: TravelTime)
  {
    WindowsParse(s.accepted) &&
    Replay(s.accepted, start, depot, serviceDefault, travel) == Progress(s.clock, s.loc, s.arrivals)
  }

  lemma {:induction false} ScanFollowsReplay(s: Scan, idx: nat, start: nat, depot: Coord,
                                             serviceDefault: nat, travel: TravelTime)
    requires idx <= |s.remaining| && WindowsParse(s.remaining)
    requires FollowsReplay(s, start, depot, serviceDefault, travel)
    ensures FollowsReplay(ScanFrom(s, idx, serviceDefault, travel), start, depot, serviceDefault, travel)
    decreases |s.remaining| - idx
  {
    if idx < |s.remaining| {
      if Admits(s.remaining[idx], s.cap, s.clock, s.loc, travel) {
        var s' := Accept(s, idx, serviceDefault, travel);
        assert forall t :: t in s'.remaining ==> t in s.remaining;
        assert s.remaining[idx] in s.remaining;
        assert forall t :: t in s'.accepted ==> t in s.accepted || t == s.remaining[idx];
        assert s'.accepted[..|s'.accepted| - 1] == s.accepted;
        ScanFollowsReplay(s', idx, start, depot, serviceDefault, travel);
      } else {
        ScanFollowsReplay(s, idx + 1, start, depot, serviceDefault, travel);
      }
    }
  }

  /** A replayed route's schedule runs forward: every ETA is at or after the
      horizon start, each ETA is at least the previous ETA plus that task's
      service time, and the final clock is the last ETA plus its service time. */
  lemma {:induction false} ReplayIsMonotone(route: seq<Task>, start: nat, depot: Coord,
                                            serviceDefault: nat, travel: TravelTime)
    requires WindowsParse(route)
    ensures var p := Replay(route, start, depot, serviceDefault, travel);
      && |p.arrivals| == |route|
      && p.clock >= start
      && (route == [] ==> p.clock == start)
      && (route != [] ==> p.clock == p.arrivals[|route| - 1] + ServiceOf(route[|route| - 1], serviceDefault))
      && (forall k :: 0 <= k < |route| ==> start <= p.arrivals[k])
      && (forall k :: 0 <= k < |route| - 1 ==> p.arrivals[k] + ServiceOf(route[k], serviceDefault) <= p.arrivals[k + 1])
  {
    if route != [] {
      var init := route[..|route| - 1];
      assert forall t :: t in init ==> t in route;
      ReplayIsMonotone(init, start, depot, serviceDefault, travel);
      var q := Replay(init, start, depot, serviceDefault, travel);
      var t := route[|route| - 1];
      var arrival := ArrivalAt(t, q.clock, q.loc, travel);
      assert arrival >= q.clock;
      var p := Replay(route, start, depot, serviceDefault, travel);
      assert p.arrivals == q.arrivals + [arrival];
      assert forall k :: 0 <= k < |init| ==> p.arrivals[k] == q.arrivals[k] && route[k] == init[k];
    }
  }

  // ---------------------------------------------------------------------------
  // Properties of one vehicle's route and of the whole run

  /** Everything proved about one vehicle's finished scan. */
  predicate RouteFacts(v: Vehicle, sc: Scan, start: nat, depot: Coord, serviceDefault: nat, travel: TravelTime)
  {
    && CapacityKept(sc, v.capacity)
    && WindowsKept(sc)
    && FollowsReplay(sc, start, depot, serviceDefault, travel)
    && WindowsParse(sc.remaining)
  }

  lemma RouteScanFacts(v: Vehicle, remaining: seq<Task>, start: nat, depot: Coord,
                       serviceDefault: nat, travel: TravelTime)
    requires WindowsParse(remaining)
    ensures RouteFacts(v, RouteScan(v, remaining, start, depot, serviceDefault, travel),
                       start, depot, serviceDefault, travel)
    ensures var sc := RouteScan(v, remaining, start, depot, serviceDefault, travel);
      multiset(Ids(sc.accepted)) + multiset(Ids(sc.remaining)) == multiset(Ids(remaining))
  {
    var init := Scan(remaining, v.capacity, start, depot, [], []);
    ScanKeepsCapacity(init, 0, serviceDefault, travel, v.capacity);
    ScanKeepsWindows(init, 0, serviceDefault, travel);
    ScanFollowsReplay(init, 0, start, depot, serviceDefault, travel);
    ScanKeepsRemainingParsed(init, 0, serviceDefault, travel);
    ScanConserves(init, 0, serviceDefault, travel);
  }

  /** All task ids taken by the scans, scan after scan. */
  function TakenIds(scans: seq<Scan>): seq<string>
  {
    if scans == [] then [] else Ids(scans[0].accepted) + TakenIds(scans[1..])
  }

  /** Conservation over the whole run, and the per-route facts for each vehicle. */
  lemma {:induction false} RunFacts(vehicles: seq<Vehicle>, remaining: seq<Task>, start: nat, depot: Coord,
                                    serviceDefault: nat, travel: TravelTime)
    requires WindowsParse(remaining)
    ensures var run := RunVehicles(vehicles, remaining, start, depot, serviceDefault, travel);
      && multiset(TakenIds(run.scans)) + multiset(Ids(run.left)) == multiset(Ids(remaining))
      && forall i :: 0 <= i < |vehicles| ==>
           RouteFacts(vehicles[i], run.scans[i], start, depot, serviceDefault, travel)
  {
    if vehicles != [] {
      var sc := RouteScan(vehicles[0], remaining, start, depot, serviceDefault, travel);
      RouteScanFacts(vehicles[0], remaining, start, depot, serviceDefault, travel);
      RunFacts(vehicles[1..], sc.remaining, start, depot, serviceDefault, travel);
      var run := RunVehicles(vehicles, remaining, start, depot, serviceDefault, travel);
      assert run.scans[1..] == RunVehicles(vehicles[1..], sc.remaining, start, depot, serviceDefault, travel).scans;
    }
  }

  lemma {:induction false} AssignedIdsOfRoutePlans(vehicles: seq<Vehicle>, scans: seq<Scan>, start: nat)
    requires |scans| == |vehicles|
    ensures AssignedIds(RoutePlans(vehicles, scans, start)) == TakenIds(scans)
  {
    if vehicles != [] {
      assert RoutePlans(vehicles, scans, start)[1..] == RoutePlans(vehicles[1..], scans[1..], start);
      AssignedIdsOfRoutePlans(vehicles[1..], scans[1..], start);
    }
  }

  // ---------------------------------------------------------------------------
  // Properties of the plan

  /** Conservation: every input task id is on exactly one route position or in
      `unscheduled`, so assigned plus unscheduled is the input count. */
  lemma GreedyConserves(depot: Coord, tasks: seq<Task>, vehicles: seq<Vehicle>, cfg: Config, travel: TravelTime)
    requires Solvable(tasks, cfg)
    ensures Conserves(tasks, GreedyPlan(depot, tasks, vehicles, cfg, travel))
    ensures var plan := GreedyPlan(depot, tasks, vehicles, cfg, travel);
      |AssignedIds(plan.vehiclePlans)| + |plan.unscheduled| == |tasks|
  {
    var start := ParseTime(cfg.horizonStart).value;
    var run := GreedyRun(tasks, vehicles, depot, cfg, travel);
    RunFacts(vehicles, tasks, start, depot, cfg.serviceDefault, travel);
    AssignedIdsOfRoutePlans(vehicles, run.scans, start);
    var plan := GreedyPlan(depot, tasks, vehicles, cfg, travel);
    assert |multiset(AssignedIds(plan.vehiclePlans)) + multiset(plan.unscheduled)| == |multiset(Ids(tasks))|;
  }

  /** Shape and totals: one route per vehicle in input order (empty routes
      included), as many ETAs as tasks on each, every route's duration is its
      final clock minus the horizon start and not negative, and the objective
      is the sum of the durations. The unscheduled ids come out sorted. */
  lemma GreedyShape(depot: Coord, tasks: seq<Task>, vehicles: seq<Vehicle>, cfg: Config, travel: TravelTime)
    requires Solvable(tasks, cfg)
    ensures var plan := GreedyPlan(depot, tasks, vehicles, cfg, travel);
      var run := GreedyRun(tasks, vehicles, depot, cfg, travel);
      && |plan.vehiclePlans| == |vehicles|
      && (forall i :: 0 <= i < |vehicles| ==>
            && plan.vehiclePlans[i].vehicleId == vehicles[i].id
            && |plan.vehiclePlans[i].tasksOrder| == |plan.vehiclePlans[i].eta|
            && plan.vehiclePlans[i].totalMinutes == run.scans[i].clock - ParseTime(cfg.horizonStart).value
            && plan.vehiclePlans[i].totalMinutes >= 0)
      && plan.objectiveMinutes == SumMinutes(plan.vehiclePlans)
      && plan.objectiveMinutes >= 0
      && Sorted(plan.unscheduled)
      && multiset(plan.unscheduled) == multiset(Ids(run.left))
  {
    var start := ParseTime(cfg.horizonStart).value;
    var run := GreedyRun(tasks, vehicles, depot, cfg, travel);
    RunFacts(vehicles, tasks, start, depot, cfg.serviceDefault, travel);
    forall i | 0 <= i < |vehicles| ensures run.scans[i].clock >= start {
      ReplayIsMonotone(run.scans[i].accepted, start, depot, cfg.serviceDefault, travel);
    }
    SumOfNonNegative(RoutePlans(vehicles, run.scans, start));
  }

  lemma {:induction false} SumOfNonNegative(plans: seq<VehiclePlan>)
    requires forall i :: 0 <= i < |plans| ==> plans[i].totalMinutes >= 0
    ensures SumMinutes(plans) >= 0
  {
    if plans != [] {
      SumOfNonNegative(plans[1..]);
    }
  }

  /** The hard constraints on every route, stated against the tasks the route
      took: its ids and ETAs are theirs (each ETA string parses back to the
      arrival minute), the load after each acceptance is within capacity, a
      windowed task's ETA lies inside its window, and consecutive ETAs are
      separated by at least the service time. */
  lemma GreedyRoutesFeasible(depot: Coord, tasks: seq<Task>, vehicles: seq<Vehicle>, cfg: Config,
                             travel: TravelTime, i: nat)
    requires Solvable(tasks, cfg)
    requires i < |vehicles|
    ensures var plan := GreedyPlan(depot, tasks, vehicles, cfg, travel);
      var sc := GreedyRun(tasks, vehicles, depot, cfg, travel).scans[i];
      var route := plan.vehiclePlans[i];
      var start := ParseTime(cfg.horizonStart).value;
      && WindowsParse(sc.accepted)
      && |sc.arrivals| == |sc.accepted| == |route.tasksOrder| == |route.eta|
      && route.tasksOrder == Ids(sc.accepted)
      && (forall k :: 0 <= k < |route.eta| ==> ParseTime(route.eta[k]) == Some(sc.arrivals[k]))
      && (forall k :: 0 < k <= |sc.accepted| ==> SumSizes(sc.accepted[..k]) <= vehicles[i].capacity)
      && (forall k :: 0 <= k < |sc.accepted| && sc.accepted[k].window.Some? ==>
            WindowStart(sc.accepted[k]) <= sc.arrivals[k] <= WindowEnd(sc.accepted[k]))
      && (forall k :: 0 <= k < |sc.accepted| ==> start <= sc.arrivals[k])
      && (forall k :: 0 <= k < |sc.accepted| - 1 ==>
            sc.arrivals[k] + ServiceOf(sc.accepted[k], cfg.serviceDefault) <= sc.arrivals[k + 1])
  {
    var start := ParseTime(cfg.horizonStart).value;
    var run := GreedyRun(tasks, vehicles, depot, cfg, travel);
    var sc := run.scans[i];
    RunFacts(vehicles, tasks, start, depot, cfg.serviceDefault, travel);
    assert GreedyPlan(depot, tasks, vehicles, cfg, travel).vehiclePlans[i] == RoutePlan(vehicles[i], sc, start);
    ScanFeasible(vehicles[i], sc, start, depot, cfg.serviceDefault, travel);
    RoutePlanReadsBack(vehicles[i], sc, start);
  }

  /** The hard constraints on a finished scan, from what was proved about it. */
  lemma ScanFeasible(v: Vehicle, sc: Scan, start: nat, depot: Coord, serviceDefault: nat, travel: TravelTime)
    requires RouteFacts(v, sc, start, depot, serviceDefault, travel)
    ensures WindowsParse(sc.accepted) && |sc.arrivals| == |sc.accepted|
    ensures forall k :: 0 < k <= |sc.accepted| ==> SumSizes(sc.accepted[..k]) <= v.capacity
    ensures forall k :: 0 <= k < |sc.accepted| && sc.accepted[k].window.Some? ==>
              WindowStart(sc.accepted[k]) <= sc.arrivals[k] <= WindowEnd(sc.accepted[k])
    ensures forall k :: 0 <= k < |sc.accepted| ==> start <= sc.arrivals[k]
    ensures forall k :: 0 <= k < |sc.accepted| - 1 ==>
              sc.arrivals[k] + ServiceOf(sc.accepted[k], serviceDefault) <= sc.arrivals[k + 1]
  {
    ReplayIsMonotone(sc.accepted, start, depot, serviceDefault, travel);
  }

  /** A route entry lists the ids of the tasks taken and one ETA per
      arrival, each parsing back to its arrival minute. */
  lemma RoutePlanReadsBack(v: Vehicle, sc: Scan, start: nat)
    ensures var route := RoutePlan(v, sc, start);
      && route.tasksOrder == Ids(sc.accepted)
      && |route.tasksOrder| == |sc.accepted| && |route.eta| == |sc.arrivals|
      && forall k :: 0 <= k < |route.eta| ==> ParseTime(route.eta[k]) == Some(sc.arrivals[k])
  {
    forall k | 0 <= k < |sc.arrivals| ensures ParseTime(FormatTime(sc.arrivals[k])) == Some(sc.arrivals[k]) {
      ParseFormat(sc.arrivals[k]);
    }
  }

  // ---------------------------------------------------------------------------
  // The planner's basic scenario

  /** Coordinates in hundredths of a degree: the depot, `a` and `b` a little
      east of it, and `c` a full degree north. At 40 km/h a hop of 0.01 degree
      takes 2 minutes and a trip to or from `c` about 167 minutes. */
  function ExampleTravel(p: Coord, q: Coord): nat
  {
    if p == q then 0 else if p.lat != q.lat then 167 else 2
  }

  const TaskA := Task("a", Pickup, Coord(0, 1), None, 2, None)
  const TaskB := Task("b", Delivery, Coord(0, 2), Some(TimeWindow("09:00", "10:00")), 2, None)
  const TaskC := Task("c", Pickup, Coord(100, 0), Some(TimeWindow("09:00", "09:30")), 2, None)
  const ExampleConfig := Config("08:00", "18:00", 5, Coord(0, 0))
  const Van1 := Vehicle("v1", "p1", 4, "o", None)
  const Van2 := Vehicle("v2", "p2", 2, "o", None)

  lemma ExampleStart()
    ensures ParseTime("08:00") == Some(480)
  {
    ParseTwoDigitTime("08:00");
  }

  lemma ExampleWindowOpens()
    ensures ParseTime("09:00") == Some(540)
  {
    ParseTwoDigitTime("09:00");
  }

  lemma ExampleWindowCloses()
    ensures ParseTime("10:00") == Some(600) && ParseTime("09:30") == Some(570)
  {
    ParseTwoDigitTime("10:00");
    ParseTwoDigitTime("09:30");
  }

  lemma ExampleTimes()
    ensures ParseTime("08:00") == Some(480) && ParseTime("09:00") == Some(540)
    ensures ParseTime("10:00") == Some(600) && ParseTime("09:30") == Some(570)
  {
    ExampleStart();
    ExampleWindowOpens();
    ExampleWindowCloses();
  }

  lemma ExampleWindowB()
    ensures WindowParses(TaskB) && WindowStart(TaskB) == 540 && WindowEnd(TaskB) == 600
  {
    ExampleWindowOpens();
    ExampleWindowCloses();
  }

  lemma ExampleWindowC()
    ensures WindowParses(TaskC) && WindowsParse([TaskC]) && WindowEnd(TaskC) == 570
  {
    ExampleWindowOpens();
    ExampleWindowCloses();
  }

  lemma ExampleWindowsParse()
    ensures WindowsParse([TaskA, TaskB, TaskC]) && WindowsParse([TaskB, TaskC]) && WindowsParse([TaskC])
    ensures WindowStart(TaskB) == 540 && WindowEnd(TaskB) == 600 && WindowEnd(TaskC) == 570
  {
    ExampleTimes();
  }

  /** The first vehicle (capacity 4) takes `a` at 08:02, ... */
  lemma ExampleTakeA()
    ensures Admits(TaskA, 4, 480, Coord(0, 0), ExampleTravel)
    ensures Accept(Scan([TaskA, TaskB, TaskC], 4, 480, Coord(0, 0), [], []), 0, 5, ExampleTravel)
         == Scan([TaskB, TaskC], 2, 487, Coord(0, 1), [TaskA], [482])
  {
    assert ArrivalAt(TaskA, 480, Coord(0, 0), ExampleTravel) == 482;
    assert [TaskA, TaskB, TaskC][..0] + [TaskA, TaskB, TaskC][1..] == [TaskB, TaskC];
    assert ServiceOf(TaskA, 5) == 5;
    assert [] + [TaskA] == [TaskA] && [] + [482] == [482];
  }

  /** ... waits for `b` until 09:00, ... */
  lemma ExampleArriveB()
    ensures WindowParses(TaskB)
    ensures ArrivalAt(TaskB, 487, Coord(0, 1), ExampleTravel) == 540
    ensures Admits(TaskB, 2, 487, Coord(0, 1), ExampleTravel)
  {
    ExampleWindowB();
  }

  /** ... and finishes there at 09:05, ... */
  lemma ExampleTakeB()
    ensures WindowParses(TaskB)
    ensures Admits(TaskB, 2, 487, Coord(0, 1), ExampleTravel)
    ensures Accept(Scan([TaskB, TaskC], 2, 487, Coord(0, 1), [TaskA], [482]), 0, 5, ExampleTravel)
         == Scan([TaskC], 0, 545, Coord(0, 2), [TaskA, TaskB], [482, 540])
  {
    ExampleArriveB();
    assert [TaskB, TaskC][..0] + [TaskB, TaskC][1..] == [TaskC];
    assert ServiceOf(TaskB, 5) == 5;
    assert [TaskA] + [TaskB] == [TaskA, TaskB] && [482] + [540] == [482, 540];
  }

  /** ... and then has no room left for `c`. */
  lemma ExampleFirstRoute()
    ensures WindowsParse([TaskA, TaskB, TaskC])
    ensures RouteScan(Van1, [TaskA, TaskB, TaskC], 480, Coord(0, 0), 5, ExampleTravel)
         == Scan([TaskC], 0, 545, Coord(0, 2), [TaskA, TaskB], [482, 540])
  {
    ExampleWindowsParse();
    ExampleTakeA();
    ExampleTakeB();
    var s0 := Scan([TaskA, TaskB, TaskC], 4, 480, Coord(0, 0), [], []);
    var s1 := Scan([TaskB, TaskC], 2, 487, Coord(0, 1), [TaskA], [482]);
    var s2 := Scan([TaskC], 0, 545, Coord(0, 2), [TaskA, TaskB], [482, 540]);
    ScanTakes(s0, 0, 5, ExampleTravel);
    ScanTakes(s1, 0, 5, ExampleTravel);
    ScanSkips(s2, 0, 5, ExampleTravel);
  }

  /** The second vehicle cannot reach `c` before its window closes at 09:30. */
  lemma ExampleSecondRoute()
    ensures WindowsParse([TaskC])
    ensures RouteScan(Van2, [TaskC], 480, Coord(0, 0), 5, ExampleTravel)
         == Scan([TaskC], 2, 480, Coord(0, 0), [], [])
  {
    ExampleWindowC();
    var t0 := Scan([TaskC], 2, 480, Coord(0, 0), [], []);
    assert ArrivalAt(TaskC, 480, Coord(0, 0), ExampleTravel) == 647;
    ScanSkips(t0, 0, 5, ExampleTravel);
  }

  lemma ExampleRun()
    ensures WindowsParse([TaskA, TaskB, TaskC])
    ensures RunVehicles([Van1, Van2], [TaskA, TaskB, TaskC], 480, Coord(0, 0), 5, ExampleTravel)
         == Run([Scan([TaskC], 0, 545, Coord(0, 2), [TaskA, TaskB], [482, 540]),
                 Scan([TaskC], 2, 480, Coord(0, 0), [], [])], [TaskC])
  {
    ExampleFirstRoute();
    ExampleSecondRoute();
    assert [Van1, Van2][1..] == [Van2];
    assert [Van2][1..] == [];
    assert RouteScan(Van2, [TaskC], 480, Coord(0, 0), 5, ExampleTravel) == Scan([TaskC], 2, 480, Coord(0, 0), [], []);
    assert RunVehicles([], [TaskC], 480, Coord(0, 0), 5, ExampleTravel) == Run([], [TaskC]);
    var rest := RunVehicles([Van2], [TaskC], 480, Coord(0, 0), 5, ExampleTravel);
    assert rest == Run([Scan([TaskC], 2, 480, Coord(0, 0), [], [])], [TaskC]);
  }

  lemma ExampleRoutePlans(scans: seq<Scan>)
    requires scans == [Scan([TaskC], 0, 545, Coord(0, 2), [TaskA, TaskB], [482, 540]),
                       Scan([TaskC], 2, 480, Coord(0, 0), [], [])]
    ensures var plans := RoutePlans([Van1, Van2], scans, 480);
      AssignedIds(plans) == ["a", "b"] && SumMinutes(plans) == 65
      && plans[0].totalMinutes == 65 && plans[1].totalMinutes == 0
  {
    var plans := RoutePlans([Van1, Van2], scans, 480);
    assert plans[0] == VehiclePlan("v1", Ids([TaskA, TaskB]), FormatAll([482, 540]), 65);
    assert plans[1] == VehiclePlan("v2", [], [], 0);
    assert Ids([TaskA, TaskB]) == ["a", "b"];
    assert plans[1..] == [plans[1]];
    assert plans[1..][1..] == [];
    assert AssignedIds(plans[1..]) == [] + AssignedIds(plans[1..][1..]) == [];
    assert SumMinutes(plans[1..]) == 0 + SumMinutes(plans[1..][1..]) == 0;
  }

  /** Two vehicles (capacities 4 and 2) and three tasks of size 2: `a` without
      a window, `b` in 09:00-10:00 and `c`, far away, in 09:00-09:30. Only `c`
      is left unscheduled, and the objective is the first route's 65 minutes. */
  lemma ExamplePlan()
    ensures Solvable([TaskA, TaskB, TaskC], ExampleConfig)
    ensures var plan := GreedyPlan(Coord(0, 0), [TaskA, TaskB, TaskC], [Van1, Van2], ExampleConfig, ExampleTravel);
      && AssignedIds(plan.vehiclePlans) == ["a", "b"]
      && plan.unscheduled == ["c"]
      && plan.vehiclePlans[0].totalMinutes == 65
      && plan.vehiclePlans[1].totalMinutes == 0
      && plan.objectiveMinutes == 65
  {
    ExampleTimes();
    ExampleRun();
    var run := GreedyRun([TaskA, TaskB, TaskC], [Van1, Van2], Coord(0, 0), ExampleConfig, ExampleTravel);
    ExampleRoutePlans(run.scans);
    assert Ids(run.left) == ["c"];
    assert Sort(["c"]) == ["c"];
  }

  // ---------------------------------------------------------------------------
  // The imperative planner

  lemma ScanSkips(s: Scan, idx: nat, serviceDefault: nat, travel: TravelTime)
    requires idx < |s.remaining| && WindowsParse(s.remaining)
    requires !Admits(s.remaining[idx], s.cap, s.clock, s.loc, travel)
    ensures ScanFrom(s, idx, serviceDefault, travel) == ScanFrom(s, idx + 1, serviceDefault, travel)
  {
  }

  lemma ScanTakes(s: Scan, idx: nat, serviceDefault: nat, travel: TravelTime)
    requires idx < |s.remaining| && WindowsParse(s.remaining)
    requires Admits(s.remaining[idx], s.cap, s.clock, s.loc, travel)
    ensures WindowsParse(Accept(s, idx, serviceDefault, travel).remaining)
    ensures ScanFrom(s, idx, serviceDefault, travel) == ScanFrom(Accept(s, idx, serviceDefault, travel), idx, serviceDefault, travel)
  {
    var s' := Accept(s, idx, serviceDefault, travel);
    assert forall t :: t in s'.remaining ==> t in s.remaining;
  }

  /** One iteration of `solve_plan`'s vehicle loop: the inner scan over the
      remaining tasks, proved to compute `RouteScan`. */
  method DriveRoute(vehicle: Vehicle, remaining: seq<Task>, start: nat, depot: Coord,
                    serviceDefault: nat, travel: TravelTime)
    returns (order: seq<string>, etas: seq<string>, time: nat, left: seq<Task>)
    requires WindowsParse(remaining)
    ensures var sc := RouteScan(vehicle, remaining, start, depot, serviceDefault, travel);
      order == Ids(sc.accepted) && etas == FormatAll(sc.arrivals) && time == sc.clock && left == sc.remaining
  {
    var cap := vehicle.capacity;
    var loc := depot;
    time := start;
    order, etas := [], [];
    left := remaining;
    ghost var accepted: seq<Task> := [];
    ghost var arrivals: seq<nat> := [];
    ghost var init := Scan(remaining, cap, time, loc, [], []);
    var idx := 0;
    while idx < |left|
      invariant idx <= |left|
      invariant WindowsParse(left)
      invariant order == Ids(accepted) && etas == FormatAll(arrivals)
      invariant ScanFrom(Scan(left, cap, time, loc, accepted, arrivals), idx, serviceDefault, travel)
                == ScanFrom(init, 0, serviceDefault, travel)
      decreases |left| - idx
    {
      var task := left[idx];
      ghost var s := Scan(left, cap, time, loc, accepted, arrivals);
      assert task in left;
      if task.size > cap {
        ScanSkips(s, idx, serviceDefault, travel);
        idx := idx + 1;
        continue;
      }
      var arrival: nat := time + travel(loc, task.location);
      if task.window.Some? {
        var ws := ParseTime(task.window.value.start).value;
        var we := ParseTime(task.window.value.end).value;
        if arrival < ws {
          arrival := ws;
        }
        if arrival > we {
          ScanSkips(s, idx, serviceDefault, travel);
          idx := idx + 1;
          continue;
        }
      }
      assert arrival == ArrivalAt(task, time, loc, travel);
      ScanTakes(s, idx, serviceDefault, travel);
      var service := ServiceOf(task, serviceDefault);
      cap := cap - task.size;
      order := order + [task.id];
      etas := etas + [FormatTime(arrival)];
      accepted := accepted + [task];
      arrivals := arrivals + [arrival];
      time := arrival + service;
      loc := task.location;
      left := left[..idx] + left[idx + 1..];
    }
  }

  /** The state of `solve_plan`'s vehicle loop after `i` vehicles: a route
      entry and a scan for each of them, and the run of the remaining
      vehicles over the tasks left completes the whole run. */
  ghost predicate Drove(vehicles: seq<Vehicle>, tasks: seq<Task>, start: nat, depot: Coord,
                        serviceDefault: nat, travel: TravelTime,
                        i: nat, plans: seq<VehiclePlan>, scans: seq<Scan>, remaining: seq<Task>)
  {
    && WindowsParse(tasks) && WindowsParse(remaining)
    && i <= |vehicles| && |scans| == i == |plans|
    && (forall k :: 0 <= k < i ==> plans[k] == RoutePlan(vehicles[k], scans[k], start))
    && var whole := RunVehicles(vehicles, tasks, start, depot, serviceDefault, travel);
       var rest := RunVehicles(vehicles[i..], remaining, start, depot, serviceDefault, travel);
       whole.scans == scans + rest.scans && whole.left == rest.left
  }

  /** One iteration of the vehicle loop keeps its state. */
  lemma DroveStep(vehicles: seq<Vehicle>, tasks: seq<Task>, start: nat, depot: Coord,
                  serviceDefault: nat, travel: TravelTime,
                  i: nat, plans: seq<VehiclePlan>, scans: seq<Scan>, remaining: seq<Task>, sc: Scan)
    requires Drove(vehicles, tasks, start, depot, serviceDefault, travel, i, plans, scans, remaining)
    requires i < |vehicles| && sc == RouteScan(vehicles[i], remaining, start, depot, serviceDefault, travel)
    ensures Drove(vehicles, tasks, start, depot, serviceDefault, travel, i + 1,
                  plans + [RoutePlan(vehicles[i], sc, start)], scans + [sc], sc.remaining)
  {
    ScanKeepsRemainingParsed(Scan(remaining, vehicles[i].capacity, start, depot, [], []), 0, serviceDefault, travel);
    assert vehicles[i..][1..] == vehicles[i + 1..];
    var after := RunVehicles(vehicles[i + 1..], sc.remaining, start, depot, serviceDefault, travel).scans;
    assert scans + ([sc] + after) == (scans + [sc]) + after;
  }

  /** The vehicle loop of `solve_plan`: one route entry per vehicle, in
      order, and the tasks no vehicle took. */
  method DriveAll(tasks: seq<Task>, vehicles: seq<Vehicle>, start: nat, depot: Coord,
                  serviceDefault: nat, travel: TravelTime)
    returns (plans: seq<VehiclePlan>, remaining: seq<Task>)
    requires WindowsParse(tasks)
    ensures var run := RunVehicles(vehicles, tasks, start, depot, serviceDefault, travel);
      plans == RoutePlans(vehicles, run.scans, start) && remaining == run.left
  {
    remaining := tasks;
    plans := [];
    ghost var scans: seq<Scan> := [];
    assert vehicles[0..] == vehicles;
    for i := 0 to |vehicles|
      invariant Drove(vehicles, tasks, start, depot, serviceDefault, travel, i, plans, scans, remaining)
    {
      var vehicle := vehicles[i];
      ghost var sc := RouteScan(vehicle, remaining, start, depot, serviceDefault, travel);
      DroveStep(vehicles, tasks, start, depot, serviceDefault, travel, i, plans, scans, remaining, sc);
      var order, etas, time, left := DriveRoute(vehicle, remaining, start, depot, serviceDefault, travel);
      plans := plans + [VehiclePlan(vehicle.id, order, etas, time as int - start)];
      scans := scans + [sc];
      remaining := left;
    }
    assert vehicles[|vehicles|..] == [];
  }

  /** `solve_plan`: the loops of the source, proved to compute `GreedyPlan`. */
  method SolvePlan(depot: Coord, tasks: seq<Task>, vehicles: seq<Vehicle>, cfg: Config, travel: TravelTime)
    returns (plan: Plan)
    requires Solvable(tasks, cfg)
    ensures plan == GreedyPlan(depot, tasks, vehicles, cfg, travel)
    ensures Conserves(tasks, plan)
    ensures |plan.vehiclePlans| == |vehicles|
  {
    var start := ParseTime(cfg.horizonStart).value;
    var plans, remaining := DriveAll(tasks, vehicles, start, depot, cfg.serviceDefault, travel);
    plan := Plan(depot, plans, Sort(Ids(remaining)), SumMinutes(plans));
    GreedyConserves(depot, tasks, vehicles, cfg, travel);
  }
}
